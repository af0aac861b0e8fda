/** Failure-carrying results: the values the model returns instead of raising. */
module Wrappers {

  datatype Option<+T> = None | Some(value: T)

  datatype Result<+R, +E> = Success(value: R) | Failure(error: E)

  /** The outcome of an operation that produces no value of its own. */
  datatype Outcome<+E> = Pass | Fail(error: E)
}
