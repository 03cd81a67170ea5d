/** Option and Result values shared by the modules of the model. */
module Wrappers {

  /** A value that may be absent (Rust's `Option`, Python's missing key). */
  datatype Option<+T> = None | Some(value: T)

  /** The outcome of a fallible call (Rust's `Result`). */
  datatype Result<+T, +E> = Ok(value: T) | Err(error: E)
}
