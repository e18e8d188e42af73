/** Failure-compatible wrappers used for the C++ exceptions of the upload path. */
module Wrappers {

  /** A value that may be absent (a null handle, an optional texture). */
  datatype Option<+T> = None | Some(value: T)

  /** The outcome of an operation that either yields a value or throws. */
  datatype Result<+T, +E> = Ok(value: T) | Err(error: E)
}
