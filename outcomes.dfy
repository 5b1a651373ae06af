/** Success/failure values standing for Rust's `Result` and `Option`. */
module Outcomes {

  datatype Option<+T> = None | Some(value: T)

  datatype Result<+T, +E> = Ok(value: T) | Err(error: E)
}
