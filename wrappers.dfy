/** Failure-compatible wrappers used throughout the model. */
module Wrappers {

  /** A value that may be absent (Swift's `Optional`). */
  datatype Option<+T> = None | Some(value: T)

  /** The outcome of an operation that can throw: a value or an error. */
  datatype Result<+R, +E> = Success(value: R) | Failure(error: E)
}
