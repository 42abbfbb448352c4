/** Failure-compatible wrappers used throughout the model. */
module Wrappers {

  datatype Option<+T> = None | Some(value: T)

  datatype Result<+R, +E> = Success(value: R) | Failure(error: E)

  /** The outcome of a step that either completes or ends the process. */
  datatype Outcome<+E> = Pass | Fail(error: E)
}
