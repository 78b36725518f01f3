/** Option and Result, the two failure-aware wrappers the model uses in place of
    null pointers and thrown exceptions. */
module Wrappers {

  /** A value that may be absent (a `const char*` that may be null). */
  datatype Option<+T> = None | Some(value: T)

  /** The outcome of an operation that can fail with an error of type `E`. */
  datatype Result<+T, +E> = Ok(value: T) | Err(error: E)
}
