/** Option and Result datatypes used by the faucet model. */
module Wrappers {

  /** A value that may be absent (Go's nil pointer or zero value "not set"). */
  datatype Option<+T> = None | Some(value: T)

  /** Either a value or an error (Go's `(T, error)` return pair). */
  datatype Result<+T, +E> = Success(value: T) | Failure(error: E)
}
