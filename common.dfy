/** Option and Result, the two wrapper types the Rust and Go code returns. */
module Common {

  /** Rust's `Option<T>`. */
  datatype Option<T> = None | Some(value: T)

  /** Rust's `Result<T, E>`, also used for a Go `(value, error)` pair. */
  datatype Result<T, E> = Ok(value: T) | Err(error: E)
}
