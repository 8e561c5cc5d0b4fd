/** Failure-carrying wrappers in the shape the Rust source uses (`Option`, `Result`). */
module Wrappers {

  /** `Option<T>`: a value or nothing. */
  datatype Option<+T> = None | Some(value: T)

  /** `Result<T, E>`: a value or an error. */
  datatype Result<+T, +E> = Ok(value: T) | Err(error: E)
}
