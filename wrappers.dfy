/** Failure-carrying values used by every module of the model. */
module Wrappers {

  /** A value that may be absent: Python's `Optional[T]`. */
  datatype Option<+T> = None | Some(value: T)

  /** A computation that either yields a value or raises an error. */
  datatype Result<+T, +E> = Success(value: T) | Failure(error: E)

  /** A computation that either completes or raises an error, yielding nothing. */
  datatype Outcome<+E> = Pass | Fail(error: E)
}
