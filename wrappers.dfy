/** Optional values and results with an error, as used by the collation model. */
module Wrappers {

  /** A value that may be absent: a dictionary key that may be missing, an output field that may be omitted. */
  datatype Option<+T> = None | Some(value: T)

  /** The outcome of an operation that may raise: a value, or the error that aborts it. */
  datatype Result<+T, +E> = Ok(value: T) | Err(error: E)
}
