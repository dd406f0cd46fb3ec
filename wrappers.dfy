/** Option and Result, the two failure-carrying wrappers the model uses. */
module Wrappers {

  /** A value that may be missing: Python's `X | None`. */
  datatype Option<+T> = None | Some(value: T)

  /** A computation that either returns a value or raises an error. */
  datatype Result<+T, +E> = Success(value: T) | Failure(error: E)
}
