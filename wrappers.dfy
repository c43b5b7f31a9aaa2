/** Failure-compatible wrappers used by the rest of the model. */
module Wrappers {

  /** A value that may be absent (the source's `null`). */
  datatype Option<+T> = None | Some(value: T)

  /** The outcome of a step that can fail with an error value. */
  datatype Result<+T, +E> = Success(value: T) | Failure(error: E)
}
