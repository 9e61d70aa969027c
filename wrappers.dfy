/** Failure-carrying return values, standing in for the exceptions the services throw. */
module Wrappers {

  datatype Option<+T> = None | Some(value: T)

  /** The result of an operation that either yields a value or throws. */
  datatype Result<+R, +E> = Success(value: R) | Failure(error: E)

  /** The result of an operation that yields nothing or throws. */
  datatype Outcome<+E> = Pass | Fail(error: E)
}
