/** Option and Result values used for Go's nil-able pointers and (value, error) pairs. */
module Wrappers {

  /** A Go pointer field: `None` is nil. */
  datatype Option<+T> = None | Some(value: T)

  /** The outcome of a call that either yields a value or fails with an error. */
  datatype Result<+T, +E> = Ok(value: T) | Err(error: E)
}
