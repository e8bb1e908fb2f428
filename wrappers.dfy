/** Optional values and results with an error, shared by every module of the model. */
module Wrappers {

  /** A value that may be absent (the source's `null` or `undefined`). */
  datatype Option<+T> = None | Some(value: T)

  /** The outcome of an operation that can throw: a value or the error it throws. */
  datatype Result<+T, +E> = Success(value: T) | Failure(error: E)
}
