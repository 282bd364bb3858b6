/**
 * The Python objects that a JSON encoder's `default` hook can be handed and
 * can hand back.  One datatype serves both directions: the hook returns Python
 * objects too, which the `json` library then goes on to encode.
 *
 * Floating-point numbers are an abstract type parameter `F`: no property of the
 * model depends on what a float is, only on where it ends up.
 */
module PyObjects {

  /** One element of a Python `bytes` or `bytearray` object. */
  newtype byte = x: int | 0 <= x < 256

  /** Number of elements of an array with the given dimensions (1 for a 0-d array). */
  function Product(shape: seq<nat>): nat
  {
    if shape == [] then 1 else shape[0] * Product(shape[1..])
  }

  /**
   * A numpy scalar: integer, floating and complex scalars are `numpy.number`
   * subclasses; `numpy.bool_` is not.  Integer values are those the scalar's
   * width allows; the model does not need the width.
   */
  datatype NpScalar<F> =
    | NpInt(i: int)
    | NpFloat(f: F)
    | NpComplex(re: F, im: F)
    | NpBool(b: bool)

  /** A numpy array as stored: its dimensions and its elements in row-major (C) order. */
  datatype RawNdarray<F> = RawNdarray(shape: seq<nat>, data: seq<NpScalar<F>>)

  /** An `ndarray` always holds exactly as many elements as its shape describes. */
  type Ndarray<F> = a: RawNdarray<F> | |a.data| == Product(a.shape)
    witness RawNdarray([], [NpInt(0)])

  datatype Py<F(==)> =
    | PyNone
    | PyBool(b: bool)
    | PyInt(i: int)
    | PyFloat(f: F)
    | PyComplex(re: F, im: F)
    | PyStr(s: string)
    | PyList(items: seq<Py<F>>)
    | PyDict(entries: map<string, Py<F>>)
    | PySet(elems: set<Py<F>>)
    | PyFrozenSet(elems: set<Py<F>>)
    | PyBytes(bytes: seq<byte>)
    | PyBytearray(bytes: seq<byte>)
    | NumpyScalar(scalar: NpScalar<F>)
    | NumpyArray(arr: Ndarray<F>)
      /** A `veles.memory.Array`; `mem` is its host buffer once `map_read()` has synchronised it. */
    | VelesArray(mem: Py<F>)
      /** A `veles.config.Config` node; `content` is what its `__content__` gives. */
    | VelesConfig(content: Py<F>)
      /** Any other object (a class instance, a function, ...), told apart by identity. */
    | Opaque(id: nat)
}
