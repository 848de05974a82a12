/** Failure-compatible wrappers shared by every module of the model. */
module Wrappers {

  datatype Option<+T> = None | Some(value: T)

  /** The value of a step that either produces `T` or stops with the error `E`. */
  datatype Result<+T, +E> = Ok(value: T) | Err(error: E)
}
