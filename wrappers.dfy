/** Optional values and results with an error, as used by the pull options model. */
module Wrappers {

  /** A value that may be absent: Go's nil function value or nil error. */
  datatype Option<+T> = None | Some(value: T)

  /** The outcome of an operation that either produces a value or fails. */
  datatype Result<+R, +E> = Ok(value: R) | Err(error: E)
}
