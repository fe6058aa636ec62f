/** Option and Result values used throughout the model in place of
    JavaScript's null returns and thrown exceptions. */
module Wrappers {

  datatype Option<+T> = None | Some(value: T)

  /** A computation that either produced a value or threw an error. */
  datatype Result<+T, +E> = Success(value: T) | Failure(error: E)

  /** A computation with no value that either returned normally or threw. */
  datatype Outcome<+E> = Pass | Fail(error: E)
}
