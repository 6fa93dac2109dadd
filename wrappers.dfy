/** Option and Result values standing in for Go's nil pointers and (value, error) pairs. */
module Wrappers {

  datatype Option<+T> = None | Some(value: T)

  /** A Go call returning `(T, error)`: either the value, or a non-nil error described by its message. */
  datatype Result<+T> = Ok(value: T) | Err(error: string)
}
