/** Failure-aware return values, standing for the exceptions the system raises. */
module Wrappers {

  datatype Option<+T> = None | Some(value: T)

  /** The value of an operation that may raise an error instead of returning. */
  datatype Result<+T, +E> = Success(value: T) | Failure(error: E)

  /** The value of an operation that returns nothing but may raise an error. */
  datatype Outcome<+E> = Pass | Fail(error: E)
}
