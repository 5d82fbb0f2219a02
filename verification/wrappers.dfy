/** Failure-compatible wrappers used for the Python code's `None` values and raised errors. */
module Wrappers {

  /** A value that may be absent (Python's `None`). */
  datatype Option<+T> = None | Some(value: T)

  /** The outcome of an operation that either returns a value or raises an error. */
  datatype Result<+R, +E> = Success(value: R) | Failure(error: E)
}
