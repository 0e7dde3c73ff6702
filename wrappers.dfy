/** Option and Result, the two Rust enums the transition rule returns. */
module Wrappers {
  /** Rust's `Option<T>`. */
  datatype Option<+T> = None | Some(value: T)

  /** Rust's `Result<T, String>`: a value, or an error message. */
  datatype Result<+T> = Ok(value: T) | Err(msg: string)
}
