/** Result types that stand in for Python's exceptions. */
module Wrappers {

  datatype Option<+T> = None | Some(value: T)

  /** A value, or the exception that replaced it. */
  datatype Result<+R, +E> = Success(value: R) | Failure(error: E)

  /** The outcome of a check that returns nothing (Python `-> None`) or raises. */
  datatype Outcome<+E> = Pass | Fail(error: E)
}
