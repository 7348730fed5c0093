/** Option, Result and Outcome: the model's stand-ins for PHP's null and thrown exceptions. */
module Wrappers {

  datatype Option<+T> = None | Some(value: T)

  datatype Result<+R, +E> = Success(value: R) | Failure(error: E)

  /** A check that either passes or fails with an error, as a PHP guard that may throw. */
  datatype Outcome<+E> = Pass | Fail(error: E)
}
