/** Option and Result, the failure-carrying values used throughout the model. */
module Wrappers {

  datatype Option<+T> = None | Some(value: T)

  /** `Failure` stands for a thrown PHP exception or error. */
  datatype Result<+T, +E> = Success(value: T) | Failure(error: E)
}
