/** Optional values and results with an error, shared by every module of the model. */
module Wrappers {

  /** A value that may be absent: JavaScript's `undefined` / `null`. */
  datatype Option<+T> = None | Some(value: T)

  /** The value of an operation that can throw: `Failure` carries what the exception says. */
  datatype Result<+T, +E> = Success(value: T) | Failure(error: E)
}
