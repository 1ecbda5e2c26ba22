/** Option, Result and Outcome values used for the absent handles and the error paths. */
module Wrappers {

  /** A value that may be absent, as a nullable field or property of the controller is. */
  datatype Option<+T> = None | Some(value: T)

  /** The value of an operation that either succeeds or fails with an error. */
  datatype Result<+T, +E> = Ok(value: T) | Err(error: E)

  /** The completion of an operation that returns nothing: it passes or it throws. */
  datatype Outcome<+E> = Pass | Fail(error: E)
}
