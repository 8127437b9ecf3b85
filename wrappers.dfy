/** Failure-carrying datatypes used throughout the model. */
module Wrappers {

  datatype Option<+T> = None | Some(value: T)

  datatype Result<+R, +E> = Success(value: R) | Failure(error: E)

  /** A success without a value, or a failure with one. */
  datatype Outcome<+E> = Pass | Fail(error: E)
}
