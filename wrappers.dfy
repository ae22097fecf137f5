/** Failure-carrying result types shared by every module of the model. */
module Wrappers {

  /** A value that may be absent: the model's stand-in for a nullable reference. */
  datatype Option<+T> = None | Some(value: T)

  /** The outcome of an operation that the original code ends by throwing. */
  datatype Result<+T, +E> = Success(value: T) | Failure(error: E)
}
