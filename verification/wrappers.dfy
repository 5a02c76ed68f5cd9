/** Failure-carrying values shared by every module of the model. */
module Wrappers {

  /** A value that may be absent (`null`/`undefined` in the application). */
  datatype Option<+T> = None | Some(value: T)

  /** The outcome of an operation that may throw: the value, or the error message. */
  datatype Result<+T, +E> = Success(value: T) | Failure(error: E)
}
