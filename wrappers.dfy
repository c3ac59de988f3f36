/** Optional values and results with an error, shared by the other modules. */
module Wrappers {

  /** A value that may be absent (a Go nil pointer, a missing key). */
  datatype Option<+T> = None | Some(value: T)

  /** The outcome of a call that either produces a value or fails with an error. */
  datatype Result<+T, +E> = Ok(value: T) | Err(error: E)
}
