/** Optional values and outcomes that may carry an error message. */
module Wrappers {

  /** A value that may be absent (JavaScript's `undefined` or a value of another type). */
  datatype Option<+T> = None | Some(value: T)

  /** An operation that either produced a value or threw an error. */
  datatype Result<+R, +E> = Success(value: R) | Failure(error: E)
}
