/**
 * The two numpy conversions the encoder relies on: `generic.item()`, which turns a
 * numpy scalar into the Python built-in scalar of the same value, and
 * `ndarray.tolist()`, which turns an array into nested Python lists, one level
 * per dimension, with every element converted by `item()`.
 */
module NumpyConversions {
  import opened Wrappers
  import opened PyObjects

  /** `isinstance(s, numpy.number)`: numpy integer, floating and complex scalars, not `numpy.bool_`. */
  predicate IsNumber<F>(s: NpScalar<F>)
  {
    !s.NpBool?
  }

  /** A Python object that is a scalar of the kind `item()` returns. */
  predicate IsBuiltinScalar<F(==)>(o: Py<F>)
  {
    o.PyInt? || o.PyFloat? || o.PyComplex? || o.PyBool?
  }

  /** `s.item()`: the built-in scalar of the same kind and value. */
  function Item<F(==)>(s: NpScalar<F>): (r: Py<F>)
    ensures IsBuiltinScalar(r)
    ensures s.NpInt? <==> r.PyInt?
    ensures s.NpFloat? <==> r.PyFloat?
    ensures s.NpComplex? <==> r.PyComplex?
    ensures s.NpBool? <==> r.PyBool?
  {
    match s
    case NpInt(i) => PyInt(i)
    case NpFloat(f) => PyFloat(f)
    case NpComplex(re, im) => PyComplex(re, im)
    case NpBool(b) => PyBool(b)
  }

  /** `item()` loses nothing: distinct scalars give distinct built-in values. */
  lemma ItemInjective<F>(s: NpScalar<F>, t: NpScalar<F>)
    requires Item(s) == Item(t)
    ensures s == t
  {
  }

  lemma MulLeq(k: nat, n: nat, m: nat)
    requires k <= n
    ensures k * m <= n * m
  {
  }

  /** Element `r` of row `i` lies inside a block of `n` rows of `m` elements. */
  lemma RowMajorBound(i: nat, n: nat, m: nat, r: nat)
    requires i < n && r < m
    ensures i * m + r < n * m
  {
    MulLeq(i + 1, n, m);
    assert (i + 1) * m == i * m + m;
  }

  /** Row `k` of a row-major block of `n` rows of `m` elements each. */
  function Row<F>(data: seq<NpScalar<F>>, n: nat, m: nat, k: nat): (r: seq<NpScalar<F>>)
    requires |data| == n * m && k < n
    ensures |r| == m
    ensures forall j :: 0 <= j < m ==> r[j] == data[k * m + j]
  {
    MulLeq(k + 1, n, m);
    data[k * m .. (k + 1) * m]
  }

  /** The nested-list form of the elements `data` laid out with dimensions `shape`. */
  function NestedList<F(==)>(shape: seq<nat>, data: seq<NpScalar<F>>): Py<F>
    requires |data| == Product(shape)
    decreases |shape|
  {
    if shape == [] then
      Item(data[0])
    else
      var n, m := shape[0], Product(shape[1..]);
      PyList(seq(n, k requires 0 <= k < n => NestedList(shape[1..], Row(data, n, m, k))))
  }

  /** `a.tolist()`; a 0-d array gives its one element as a scalar. */
  function Tolist<F(==)>(a: Ndarray<F>): Py<F>
  {
    NestedList(a.shape, a.data)
  }

  /** `o` is nested lists of exactly the given dimensions with built-in scalars at the leaves. */
  ghost predicate HasShape<F>(o: Py<F>, shape: seq<nat>)
    decreases |shape|
  {
    if shape == [] then
      IsBuiltinScalar(o)
    else
      o.PyList? && |o.items| == shape[0] &&
      forall k :: 0 <= k < shape[0] ==> HasShape(o.items[k], shape[1..])
  }

  /** `o[i0][i1]...`: indexing nested lists, `None` where an index is out of range or `o` is no list. */
  function At<F(==)>(o: Py<F>, idx: seq<nat>): Option<Py<F>>
    decreases |idx|
  {
    if idx == [] then Some(o)
    else if o.PyList? && idx[0] < |o.items| then At(o.items[idx[0]], idx[1..])
    else None
  }

  /** A multi-index naming one element of an array with dimensions `shape`. */
  predicate InBounds(shape: seq<nat>, idx: seq<nat>)
  {
    |idx| == |shape| && forall i :: 0 <= i < |idx| ==> idx[i] < shape[i]
  }

  /** Position of the element at multi-index `idx` in row-major order. */
  function FlatIndex(shape: seq<nat>, idx: seq<nat>): (r: nat)
    requires InBounds(shape, idx)
    ensures r < Product(shape)
    decreases |shape|
  {
    if shape == [] then
      0
    else
      var m := Product(shape[1..]);
      assert InBounds(shape[1..], idx[1..]);
      var rest := FlatIndex(shape[1..], idx[1..]);
      RowMajorBound(idx[0], shape[0], m, rest);
      idx[0] * m + rest
  }

  /** `tolist()` produces nested lists of exactly the array's dimensions. */
  lemma {:induction false} NestedListHasShape<F>(shape: seq<nat>, data: seq<NpScalar<F>>)
    requires |data| == Product(shape)
    ensures HasShape(NestedList(shape, data), shape)
    decreases |shape|
  {
    if shape != [] {
      var n, m := shape[0], Product(shape[1..]);
      var o := NestedList(shape, data);
      forall k | 0 <= k < n
        ensures HasShape(o.items[k], shape[1..])
      {
        NestedListHasShape(shape[1..], Row(data, n, m, k));
      }
    }
  }

  /** Indexing the nested list at an in-range multi-index finds `item()` of the row-major element there. */
  lemma {:induction false} NestedListAt<F>(shape: seq<nat>, data: seq<NpScalar<F>>, idx: seq<nat>)
    requires |data| == Product(shape)
    requires InBounds(shape, idx)
    ensures FlatIndex(shape, idx) < |data|
    ensures At(NestedList(shape, data), idx) == Some(Item(data[FlatIndex(shape, idx)]))
    decreases |shape|
  {
    if shape != [] {
      var n, m, k := shape[0], Product(shape[1..]), idx[0];
      assert InBounds(shape[1..], idx[1..]);
      var row := Row(data, n, m, k);
      var o := NestedList(shape, data);
      assert o.items[k] == NestedList(shape[1..], row);
      assert At(o, idx) == At(o.items[k], idx[1..]);
      NestedListAt(shape[1..], row, idx[1..]);
      var j := FlatIndex(shape[1..], idx[1..]);
      assert FlatIndex(shape, idx) == k * m + j;
      assert row[j] == data[k * m + j];
    }
  }

  /** A multi-index of the right length that is out of range finds nothing. */
  lemma {:induction false} NestedListOutOfRange<F>(shape: seq<nat>, data: seq<NpScalar<F>>, idx: seq<nat>)
    requires |data| == Product(shape)
    requires |idx| == |shape| && !InBounds(shape, idx)
    ensures At(NestedList(shape, data), idx) == None
    decreases |shape|
  {
    var n, m := shape[0], Product(shape[1..]);
    if idx[0] < n {
      if InBounds(shape[1..], idx[1..]) {
        forall i | 0 <= i < |idx|
          ensures idx[i] < shape[i]
        {
          if i > 0 {
            assert idx[1..][i - 1] < shape[1..][i - 1];
          }
        }
        assert false;
      }
      NestedListOutOfRange(shape[1..], Row(data, n, m, idx[0]), idx[1..]);
    }
  }

  /** `tolist()` of any array: its dimensions, and each element in row-major place. */
  lemma TolistShapeAndElements<F>(a: Ndarray<F>, idx: seq<nat>)
    ensures HasShape(Tolist(a), a.shape)
    ensures InBounds(a.shape, idx) ==>
      FlatIndex(a.shape, idx) < |a.data| && At(Tolist(a), idx) == Some(Item(a.data[FlatIndex(a.shape, idx)]))
    ensures |idx| == |a.shape| && !InBounds(a.shape, idx) ==> At(Tolist(a), idx) == None
  {
    NestedListHasShape(a.shape, a.data);
    if InBounds(a.shape, idx) {
      NestedListAt(a.shape, a.data, idx);
    } else if |idx| == |a.shape| {
      NestedListOutOfRange(a.shape, a.data, idx);
    }
  }
}
