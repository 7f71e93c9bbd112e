/** Option, Result and Outcome, the failure-carrying values used across the model. */
module Wrappers {

  datatype Option<+T> = None | Some(value: T)

  datatype Result<+R, +E> = Success(value: R) | Failure(error: E)

  /** The result of a step that either completes or raises. */
  datatype Outcome<+E> = Pass | Fail(error: E)
}
