/** Option and Result values, as the Rust side uses them. */
module Wrappers {

  datatype Option<+T> = None | Some(value: T)

  /** A fallible value: the model of Rust's `Result<T, E>`. */
  datatype Result<+T, +E> = Ok(value: T) | Err(error: E)

}
