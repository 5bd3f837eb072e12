/** Failure-carrying values used across the model. */
module Wrappers {

  /** The outcome of an `Iterator::find`: no match, or the matching element's index. */
  datatype Option<+T> = None | Some(value: T)

  /** Rust's `Result<T, E>`; every error in the library is a human-readable `String`. */
  datatype Result<+T, +E> = Ok(value: T) | Err(error: E)
}
