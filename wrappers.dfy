/** Success-or-failure values: Rust's `Result<T, E>` and `Option<T>`. */
module Wrappers {

  datatype Result<+T, +E> = Ok(value: T) | Err(error: E)

  datatype Option<+T> = None | Some(value: T)
}
