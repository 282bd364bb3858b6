/**
 * `veles.json_encoders`: the `default` hooks that `json.dump(s)` calls for an
 * object it cannot serialise itself.  `NumpyJSONEncoder.default` converts numpy
 * arrays and scalars, veles Arrays, complex numbers, sets and byte strings into
 * objects `json` can handle, trying one `isinstance` test after another;
 * `ConfigJSONEncoder.default` first turns a veles `Config` into its content.
 * Everything else raises the `TypeError` of `json.JSONEncoder.default`.
 */
module JsonEncoders {
  import opened Wrappers
  import opened PyObjects
  import opened NumpyConversions
  import opened Charmap

  /** The `TypeError` "Object of type ... is not JSON serializable", naming the rejected object. */
  datatype TypeError<F(==)> = TypeError(obj: Py<F>)

  /**
   * `list(s)` for a Python set: its elements, each exactly once, in an order Python
   * does not promise (here an unspecified choice).
   */
  ghost function SetToList<F>(s: set<Py<F>>): (l: seq<Py<F>>)
    ensures |l| == |s|
    ensures multiset(l) == multiset(s)
    ensures forall i, j :: 0 <= i < j < |l| ==> l[i] != l[j]
    decreases |s|
  {
    if s == {} then
      []
    else
      var x :| x in s;
      var rest := SetToList(s - {x});
      assert multiset(s) == multiset{x} + multiset(s - {x});
      assert forall k :: 0 <= k < |rest| ==> rest[k] in multiset(rest);
      [x] + rest
  }

  /**
   * `isinstance(o, (complex, numpy.complex))`, with `numpy.complex` the alias of the
   * built-in `complex`.  numpy's complex128 derives from `complex` and passes; the
   * model does not distinguish complex widths.
   */
  predicate IsComplex<F(==)>(o: Py<F>)
  {
    o.PyComplex? || (o.NumpyScalar? && o.scalar.NpComplex?)
  }

  /** `[o.real, o.imag]`. */
  function RealImag<F(==)>(o: Py<F>): (r: Py<F>)
    requires IsComplex(o)
  {
    match o
    case PyComplex(re, im) => PyList([PyFloat(re), PyFloat(im)])
    case NumpyScalar(s) => PyList([PyFloat(s.re), PyFloat(s.im)])
  }

  /** The object the type tests look at: a veles Array is replaced by its host buffer. */
  function Unwrapped<F(==)>(v: Py<F>): Py<F>
  {
    if v.VelesArray? then v.mem else v
  }

  /** The `isinstance` tests of `NumpyJSONEncoder.default`, in the order the code tries them. */
  datatype Branch = NdarrayTest | NumberTest | ComplexTest | SetTest | BytesTest

  const Order: seq<Branch> := [NdarrayTest, NumberTest, ComplexTest, SetTest, BytesTest]

  predicate Matches<F(==)>(o: Py<F>, b: Branch)
  {
    match b
    case NdarrayTest => o.NumpyArray?
    case NumberTest => o.NumpyScalar? && IsNumber(o.scalar)
    case ComplexTest => IsComplex(o)
    case SetTest => o.PySet?
    case BytesTest => o.PyBytes?
  }

  /** Index in `tests` of the first test `o` passes, `None` when it passes none. */
  function FirstMatch<F(==)>(o: Py<F>, tests: seq<Branch>): (r: Option<nat>)
    ensures r.Some? ==> r.value < |tests| && Matches(o, tests[r.value])
    ensures r.Some? ==> forall j :: 0 <= j < r.value ==> !Matches(o, tests[j])
    ensures r.None? <==> forall j :: 0 <= j < |tests| ==> !Matches(o, tests[j])
    decreases |tests|
  {
    if tests == [] then None
    else if Matches(o, tests[0]) then Some(0)
    else
      match FirstMatch(o, tests[1..])
      case None => None
      case Some(i) => Some(i + 1)
  }

  /** What each branch returns for an object that passes its test. */
  ghost function Convert<F>(o: Py<F>, b: Branch): Py<F>
    requires Matches(o, b)
  {
    match b
    case NdarrayTest => Tolist(o.arr)
    case NumberTest => Item(o.scalar)
    case ComplexTest => RealImag(o)
    case SetTest => PyList(SetToList(o.elems))
    case BytesTest => PyStr(Decode(o.bytes))
  }

  /** Ordered dispatch: the first passing test decides; passing none is the base class's `TypeError`. */
  ghost function Dispatch<F>(o: Py<F>): Result<Py<F>, TypeError<F>>
  {
    match FirstMatch(o, Order)
    case None => Err(TypeError(o))
    case Some(i) => Ok(Convert(o, Order[i]))
  }

  /** `NumpyJSONEncoder.default(obj)`. */
  ghost function Default<F>(v: Py<F>): (r: Result<Py<F>, TypeError<F>>)
    ensures r.Err? ==> r.error == TypeError(Unwrapped(v))
    ensures r.Err? ==> forall b: Branch :: !Matches(Unwrapped(v), b)
  {
    // A veles Array is synchronised to the host and replaced by its buffer.
    var o := Unwrapped(v);
    if o.NumpyArray? then
      Ok(Tolist(o.arr))
    else if o.NumpyScalar? && IsNumber(o.scalar) then
      Ok(Item(o.scalar))
    else if IsComplex(o) then
      Ok(RealImag(o))
    else if o.PySet? then
      Ok(PyList(SetToList(o.elems)))
    else if o.PyBytes? then
      Ok(PyStr(Decode(o.bytes)))
    else
      Err(TypeError(o))
  }

  /** `ConfigJSONEncoder.default(obj)`. */
  ghost function ConfigDefault<F>(v: Py<F>): (r: Result<Py<F>, TypeError<F>>)
    ensures v.VelesConfig? ==> r == Ok(v.content)
    ensures !v.VelesConfig? ==> r == Default(v)
  {
    if v.VelesConfig? then Ok(v.content) else Default(v)
  }

  // ---------------------------------------------------------------------------
  // Properties of NumpyJSONEncoder.default

  /** The chain of `if`/`elif` tests is ordered dispatch over `Order`: the first test that passes wins. */
  lemma DefaultIsFirstMatch<F>(v: Py<F>)
    ensures Default(v) == Dispatch(Unwrapped(v))
  {
  }

  /** Every test appears in `Order`. */
  lemma OrderComplete(b: Branch)
    ensures exists j :: 0 <= j < |Order| && Order[j] == b
  {
    match b
    case NdarrayTest => assert Order[0] == b;
    case NumberTest => assert Order[1] == b;
    case ComplexTest => assert Order[2] == b;
    case SetTest => assert Order[3] == b;
    case BytesTest => assert Order[4] == b;
  }

  /** `default` raises `TypeError` exactly for the objects that pass none of the tests: nothing is dropped silently. */
  lemma DefaultErrIffUnmatched<F>(v: Py<F>)
    ensures Default(v).Err? <==> forall b: Branch :: !Matches(Unwrapped(v), b)
  {
    DefaultIsFirstMatch(v);
    var o := Unwrapped(v);
    if FirstMatch(o, Order).None? {
      forall b: Branch
        ensures !Matches(o, b)
      {
        OrderComplete(b);
      }
    }
  }

  /** A veles Array is encoded exactly as its host buffer would be, unless that buffer is itself an Array. */
  lemma ArrayEncodedAsMem<F>(mem: Py<F>)
    requires !mem.VelesArray?
    ensures Default(VelesArray(mem)) == Default(mem)
  {
  }

  /** The Array test is made once: an Array whose buffer is an Array is rejected, naming the inner Array. */
  lemma ArrayUnwrappedOnce<F>(mem: Py<F>)
    requires mem.VelesArray?
    ensures Default(VelesArray(mem)) == Err(TypeError(mem))
  {
  }

  /** An `ndarray`, bare or as an Array's buffer, becomes nested lists of its shape holding its elements. */
  lemma NdarrayToNestedList<F>(a: Ndarray<F>, idx: seq<nat>)
    ensures Default(NumpyArray(a)) == Ok(Tolist(a))
    ensures Default(VelesArray(NumpyArray(a))) == Ok(Tolist(a))
    ensures HasShape(Tolist(a), a.shape)
    ensures InBounds(a.shape, idx) ==>
      FlatIndex(a.shape, idx) < |a.data| && At(Tolist(a), idx) == Some(Item(a.data[FlatIndex(a.shape, idx)]))
  {
    TolistShapeAndElements(a, idx);
  }

  /** A numpy number becomes the built-in scalar of the same value. */
  lemma NumberToBuiltin<F>(s: NpScalar<F>)
    requires IsNumber(s)
    ensures Default(NumpyScalar(s)).Ok?
    ensures IsBuiltinScalar(Default(NumpyScalar(s)).value)
    ensures Default(NumpyScalar(s)) == Ok(Item(s))
  {
  }

  /** A Python complex becomes the two-element list real part, imaginary part. */
  lemma ComplexToPair<F>(re: F, im: F)
    ensures Default(PyComplex(re, im)).Ok?
    ensures Default(PyComplex(re, im)).value.PyList?
    ensures Default(PyComplex(re, im)).value.items == [PyFloat(re), PyFloat(im)]
  {
  }

  /**
   * A numpy complex scalar (complex128, which derives from `complex`) passes the
   * complex test too, but the `numpy.number` test comes first: it becomes a Python
   * complex, not a list.
   */
  lemma NumpyComplexTakesItemPath<F>(re: F, im: F)
    ensures IsComplex(NumpyScalar(NpComplex(re, im)))
    ensures Default(NumpyScalar(NpComplex(re, im))) == Ok(PyComplex(re, im))
    ensures Default(NumpyScalar(NpComplex(re, im))) != Ok(RealImag(NumpyScalar(NpComplex(re, im))))
  {
  }

  /** `numpy.bool_` is not a `numpy.number`, and no other test accepts it. */
  lemma NumpyBoolRejected<F>(b: bool)
    ensures Default<F>(NumpyScalar(NpBool(b))) == Err(TypeError(NumpyScalar(NpBool(b))))
  {
  }

  /** A set becomes a list of exactly its elements, each once. */
  lemma SetToListed<F>(s: set<Py<F>>)
    ensures Default(PySet(s)).Ok? && Default(PySet(s)).value.PyList?
    ensures |Default(PySet(s)).value.items| == |s|
    ensures forall x :: x in Default(PySet(s)).value.items <==> x in s
    ensures var l := Default(PySet(s)).value.items;
      forall i, j :: 0 <= i < j < |l| ==> l[i] != l[j]
  {
    var l := Default(PySet(s)).value.items;
    forall x
      ensures x in l <==> x in s
    {
      assert x in l <==> x in multiset(l);
      assert x in s <==> x in multiset(s);
    }
  }

  /** `bytes` becomes the string with one character per byte, of the byte's code point, which re-encodes to the bytes. */
  lemma BytesToLatin1<F>(b: seq<byte>)
    ensures Default<F>(PyBytes(b)).Ok? && Default<F>(PyBytes(b)).value.PyStr?
    ensures var t := Default<F>(PyBytes(b)).value.s;
      |t| == |b| && (forall i :: 0 <= i < |b| ==> t[i] as int == b[i] as int) && Encode(t) == Some(b)
  {
    DecodeEncode(b);
  }

  /** Different byte strings are never encoded alike. */
  lemma BytesInjective<F>(b1: seq<byte>, b2: seq<byte>)
    requires Default<F>(PyBytes(b1)) == Default<F>(PyBytes(b2))
    ensures b1 == b2
  {
    DecodeInjective(b1, b2);
  }

  /** Objects of every kind the tests do not name, including `frozenset` and `bytearray`, raise `TypeError`. */
  lemma OthersRejected<F>(v: Py<F>)
    requires v.PyNone? || v.PyBool? || v.PyInt? || v.PyFloat? || v.PyStr? || v.PyList? || v.PyDict?
      || v.PyFrozenSet? || v.PyBytearray? || v.VelesConfig? || v.Opaque?
    ensures Default(v) == Err(TypeError(v))
  {
  }

  // ---------------------------------------------------------------------------
  // Properties of ConfigJSONEncoder.default

  /** A Config becomes its content, which the plain numpy encoder would reject. */
  lemma ConfigToContent<F>(c: Py<F>)
    ensures ConfigDefault(VelesConfig(c)) == Ok(c)
    ensures Default(VelesConfig(c)).Err?
  {
  }

  /** `ConfigJSONEncoder.default` raises exactly for a non-Config object that, once unwrapped, passes none of the tests. */
  lemma ConfigErrIffUnmatched<F>(v: Py<F>)
    ensures ConfigDefault(v).Err? <==> !v.VelesConfig? && forall b: Branch :: !Matches(Unwrapped(v), b)
  {
    DefaultErrIffUnmatched(v);
  }

  /** The Config test sees the object before unwrapping: an Array whose buffer is a Config is rejected. */
  lemma ArrayOfConfigRejected<F>(c: Py<F>)
    ensures ConfigDefault(VelesArray(VelesConfig(c))) == Err(TypeError(VelesConfig(c)))
  {
  }
}
