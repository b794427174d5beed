/** Option and Result values used for the Go `(value, error)` returns. */
module Wrappers {

  datatype Option<+T> = None | Some(value: T)

  /** A Go `(value, error)` pair: either a value or an error of kind `E`. */
  datatype Result<+T, +E> = Ok(value: T) | Err(error: E)
}
