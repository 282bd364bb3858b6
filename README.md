# veles JSON encoder hooks

This project models `veles/json_encoders.py`, the two `default` hooks that
veles hands to `json.dump(s)`. The `json` library calls `default` for every
object it cannot serialise by itself:

- `NumpyJSONEncoder.default` first replaces a veles `Array` by its host buffer
  `mem`, after `map_read()` has synchronised it. It then tries a fixed chain of
  `isinstance` tests. An `ndarray` becomes nested lists (`tolist()`). A
  `numpy.number` becomes a built-in scalar (`item()`). A complex number becomes
  `[real, imag]`. A `set` becomes a list. A `bytes` object is decoded with the
  "charmap" codec, which is Latin-1 when no mapping table is given. Any other
  object goes to `json.JSONEncoder.default`, which raises `TypeError`.
- `ConfigJSONEncoder.default` turns a veles `Config` into its `__content__`
  and passes every other object to the hook above.

The model is pure. `PyObjects.Py` is one datatype for the Python objects a
hook receives and returns. Floats are an abstract type parameter. An
`ndarray` holds its shape and its elements in row-major order, and its type
guarantees that the element count matches the shape.
`JsonEncoders.Default` is the `if`/`elif` chain as written. `JsonEncoders.Dispatch`
is an independent statement of "first passing test in `Order` wins". The
order in which `list(s)` lists a set's elements is not promised by Python. It
is modelled as an unspecified choice (`SetToList`), so the hooks are ghost
functions.

Modules: `Wrappers` (Option, Result), `PyObjects` (data model),
`NumpyConversions` (`item()`, `tolist()`), `Charmap` (Latin-1 decode and encode),
`JsonEncoders` (the two hooks and their properties).

## Model

| member | source | states |
|---|---|---|
| `JsonEncoders.Default` | veles/json_encoders.py:46-60 | when the hook raises, the `TypeError` names the object left after unwrapping an Array, and that object passes none of the tests |
| `JsonEncoders.DefaultIsFirstMatch` | veles/json_encoders.py:50-60 | the `if`/`elif` chain equals ordered dispatch: the first of ndarray, number, complex, set, bytes tests that passes decides the result, and passing none gives `TypeError` |
| `JsonEncoders.FirstMatch` | veles/json_encoders.py:50-59 | the index returned is of a passing test with no passing test before it; `None` exactly when no test passes |
| `JsonEncoders.DefaultErrIffUnmatched` | veles/json_encoders.py:60 | the hook fails exactly for objects that pass none of the tests, so no object is dropped silently |
| `JsonEncoders.ArrayEncodedAsMem` | veles/json_encoders.py:47-49 | an Array is encoded exactly as its host buffer would be |
| `JsonEncoders.ArrayUnwrappedOnce` | veles/json_encoders.py:47-49 | the unwrap happens once: an Array whose buffer is another Array is rejected, and the error names the inner Array |
| `JsonEncoders.NdarrayToNestedList` | veles/json_encoders.py:50-51 | an ndarray, bare or inside an Array, becomes `tolist()`: nested lists of its shape, each in-range index finding `item()` of the row-major element |
| `JsonEncoders.NumberToBuiltin` | veles/json_encoders.py:52-53 | a numpy number becomes `item()`, a built-in scalar |
| `JsonEncoders.ComplexToPair` | veles/json_encoders.py:54-55 | a Python complex becomes a two-element list, real part first and imaginary part second |
| `JsonEncoders.NumpyComplexTakesItemPath` | veles/json_encoders.py:52-55 | a numpy complex scalar (complex128 passes the complex test; the model does not distinguish widths) is caught by the number test first: it becomes a Python complex, not the list |
| `JsonEncoders.NumpyBoolRejected` | veles/json_encoders.py:52-60 | `numpy.bool_` is no `numpy.number` and raises `TypeError` |
| `JsonEncoders.SetToList` | veles/json_encoders.py:57 | `list(s)` has the set's cardinality and the same multiset of elements, and no element repeats |
| `JsonEncoders.SetToListed` | veles/json_encoders.py:56-57 | a set becomes a list holding exactly its elements, each once |
| `JsonEncoders.BytesToLatin1` | veles/json_encoders.py:58-59 | bytes become a string of the same length whose i-th code point is the i-th byte, and that string encodes back to the bytes |
| `JsonEncoders.BytesInjective` | veles/json_encoders.py:58-59 | two byte strings with the same encoding are equal |
| `JsonEncoders.OthersRejected` | veles/json_encoders.py:60 | None, bool, int, float, str, list, dict, frozenset, bytearray, Config and other objects raise `TypeError` naming the object |
| `JsonEncoders.ConfigDefault` | veles/json_encoders.py:64-67 | a Config becomes its content; every other object gets the result or error of `NumpyJSONEncoder.default` |
| `JsonEncoders.ConfigToContent` | veles/json_encoders.py:65-66 | a Config becomes its content, where the numpy hook alone would raise |
| `JsonEncoders.ConfigErrIffUnmatched` | veles/json_encoders.py:64-67 | the Config hook raises exactly for an object that is not a Config and that, once unwrapped, passes none of the numpy hook's tests |
| `JsonEncoders.ArrayOfConfigRejected` | veles/json_encoders.py:47-49 | the Config test runs before the Array unwrap: an Array whose buffer is a Config is rejected |
| `JsonEncoders.Unwrapped` | veles/json_encoders.py:47-49 | an Array is replaced by its host buffer, every other object is left as it is; what follows from it is stated by `ArrayEncodedAsMem` and `ArrayUnwrappedOnce` |
| `JsonEncoders.Matches` | veles/json_encoders.py:50-58 | the five `isinstance` tests, one per branch; their order and the first-match rule are stated by `DefaultIsFirstMatch` |
| `JsonEncoders.IsComplex` | veles/json_encoders.py:54 | the complex test: a Python complex or a numpy complex scalar (complex128 passes the complex test; the model does not distinguish widths); `NumpyComplexTakesItemPath` states its consequence |
| `JsonEncoders.RealImag` | veles/json_encoders.py:55 | `[obj.real, obj.imag]`; `ComplexToPair` states the result for a Python complex |
| `NumpyConversions.IsNumber` | veles/json_encoders.py:52 | the `numpy.number` test: integer, floating and complex scalars, not `numpy.bool_`; stated by `NumberToBuiltin` and `NumpyBoolRejected` |
| `NumpyConversions.NestedList` | veles/json_encoders.py:51 | the worker behind `tolist()`: one list level per dimension, rows cut in row-major order; described by `NestedListHasShape`, `NestedListAt` and `NestedListOutOfRange` |
| `NumpyConversions.Tolist` | veles/json_encoders.py:51 | `obj.tolist()`; described by `TolistShapeAndElements` (shape, every element in row-major place, nothing outside the shape) |
| `NumpyConversions.Item` | veles/json_encoders.py:53 | `item()` gives a built-in scalar of the same kind (int, float, complex, bool) |
| `NumpyConversions.ItemInjective` | veles/json_encoders.py:53 | distinct numpy scalars give distinct built-in values |
| `NumpyConversions.FlatIndex` | veles/json_encoders.py:51 | the row-major position of an in-range multi-index is below the array's element count |
| `NumpyConversions.NestedListHasShape` | veles/json_encoders.py:51 | `tolist()` gives nested lists whose lengths are the array's dimensions, with built-in scalars at depth `ndim` |
| `NumpyConversions.NestedListAt` | veles/json_encoders.py:51 | indexing the nested lists at an in-range multi-index gives `item()` of the element at its row-major position |
| `NumpyConversions.NestedListOutOfRange` | veles/json_encoders.py:51 | a full-length multi-index that is out of range finds nothing |
| `NumpyConversions.TolistShapeAndElements` | veles/json_encoders.py:51 | `tolist()` of any ndarray has the array's shape, finds each element at its index and nothing outside the shape |
| `Charmap.Decode` | veles/json_encoders.py:59 | one character per byte, whose code point is the byte's value |
| `Charmap.Encode` | veles/json_encoders.py:59 | Latin-1 encoding succeeds exactly when every code point is below 256, and keeps the length |
| `Charmap.DecodeEncode` | veles/json_encoders.py:59 | every decoded string encodes back to the original bytes |
| `Charmap.EncodeDecode` | veles/json_encoders.py:59 | every encodable string is the decoding of its encoding |
| `Charmap.DecodeInjective` | veles/json_encoders.py:59 | decoding is injective |

## Left out

- `Array.map_read()`: the host/device synchronisation lives in `veles/memory.py`, which is not part of this model. An Array is modelled by the host buffer it holds after synchronising, and the dirty-flag bookkeeping is not modelled.
- `Config.__content__`: `veles/config.py` is not part of this model. A Config is modelled by the object its `__content__` returns.
- The recursive encoding that `json` applies to whatever `default` returns is library code and is not modelled. For example, it calls `default` again for a Python complex produced by `item()`, or for set elements that need conversion.
- numpy is modelled only as far as the hook uses it. Scalars are integer, floating, complex and bool. Arrays hold such scalars. Object, string and datetime dtypes and their scalars are not modelled. Neither is `numpy.bytes_`, which derives from `bytes`.
- Numeric widths are not modelled. A numpy integer holds a value its width allows, and `item()` keeps that value.
- IsComplex, Item, NumberToBuiltin and NumpyComplexTakesItemPath: their numpy scalar kinds stand for the standard widths (int64, float64, complex128). In numpy, complex64 and clongdouble do not derive from `complex` and fail the complex test, and `item()` of longdouble or clongdouble returns a numpy scalar rather than a built-in one; `Default` is unaffected for them in the model because the number test at line 52 comes first. The model also assumes `numpy.complex` is the alias of the built-in `complex` (NumPy before 1.24); later NumPy removed it, and line 54 then raises AttributeError for every object that reaches it (sets, bytes, Python complex and everything rejected).
- Floating-point values are an abstract type. Nothing about rounding or NaN is stated.
- The order of `list(s)` for a set is an unspecified choice. The model states only which elements occur and that each occurs once.
- Subclasses other than those named above are not modelled: user subclasses of `set`, `bytes`, `ndarray` or `Array`.
- `veles/__init__.py`: package metadata, filesystem scanning for units, and the `cloc` line counter. These are I/O and process plumbing.
- `veles/tests/accelerated_test.py`: unittest harness, backend instantiation and leak checks. These depend on a backend registry and device classes that are not part of this model.
