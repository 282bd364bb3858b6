/** Option and Result, the failure-carrying datatypes shared by the other modules. */
module Wrappers {

  datatype Option<+T> = None | Some(value: T)

  /** `Ok` is a value returned by an encoder hook, `Err` the exception it raises. */
  datatype Result<+T, +E> = Ok(value: T) | Err(error: E)
}
