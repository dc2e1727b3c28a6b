/** Option, Result and Outcome: the error-returning shapes of the Go code. */
module Wrappers {

  datatype Option<+T> = None | Some(value: T)

  /** A value or an error. */
  datatype Result<+T, +E> = Ok(value: T) | Err(error: E)

  /** The result of a check that carries no value (`err == nil` or not). */
  datatype Outcome<+E> = Pass | Fail(error: E)
}
