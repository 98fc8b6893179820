/** Failure-carrying datatypes used across the model. */
module Wrappers {

  /** A value that may be absent: a missing cell of a table, a failed parse. */
  datatype Option<+T> = None | Some(value: T)

  /** The outcome of a computation that either produces a value or raises an error. */
  datatype Result<+T, +E> = Success(value: T) | Failure(error: E)
}
