/** Failure-compatible wrappers used throughout the model. */
module Wrappers {

  /** A value that may be absent: stands for a Java reference that may be null, or a Ruby nil. */
  datatype Option<+T> = None | Some(value: T)

  /** The outcome of a computation that returns a value or raises an exception. */
  datatype Result<+T, +E> = Success(value: T) | Failure(error: E)

  /** The outcome of a computation that returns nothing or raises an exception. */
  datatype Outcome<+E> = Pass | Fail(error: E)
}
