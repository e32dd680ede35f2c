/** Option and Result, the usual failure-carrying wrappers. */
module Wrappers {

  datatype Option<+T> = None | Some(value: T)

  /** A Go call that returns a value and an error: exactly one of the two is meaningful. */
  datatype Result<+T, +E> = Success(value: T) | Failure(error: E)
}
