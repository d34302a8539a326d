/** Option and Result, the two failure-carrying wrappers the model uses. */
module Wrappers {

  /** Some/None in place of a Go pointer that may be nil. */
  datatype Option<+T> = None | Some(value: T)

  /** Either a value or the error a Go function returns beside it. */
  datatype Result<+T, +E> = Ok(value: T) | Err(error: E)
}
