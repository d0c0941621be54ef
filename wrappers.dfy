/** Failure-carrying values used across the handlers. */
module Wrappers {

  /** A value that may be absent (a Go nil slice or nil pointer). */
  datatype Option<+T> = None | Some(value: T)

  /** A value or an error message (a Go `(T, error)` pair). */
  datatype Result<+T> = Ok(value: T) | Err(error: string)
}
