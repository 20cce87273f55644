/** Option and Result, the two failure-carrying datatypes the model uses in place of
    Go's nil pointers and (value, error) pairs. */
module Wrappers {

  datatype Option<+T> = None | Some(value: T)

  /** A Go `(T, error)` pair: `Ok` when the error is nil, `Err` otherwise. */
  datatype Result<+T, +E> = Ok(value: T) | Err(error: E)
}
