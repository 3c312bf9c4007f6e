/** Option and Result, the error channel of every stage of the model. */
module Wrappers {

  datatype Option<+T> = None | Some(value: T)

  /** A stage either succeeds with a value or fails with an error. */
  datatype Result<+T, +E> = Success(value: T) | Failure(error: E)
}
