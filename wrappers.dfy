/** Failure-carrying values used in place of Go's `(T, error)` results and nil pointers. */
module Wrappers {

  /** A value that may be absent (a nil pointer, a missing file, a failed parse). */
  datatype Option<+T> = None | Some(value: T)

  /** The outcome of a Go call returning `(T, error)`: the value, or the error's text. */
  datatype Result<+T> = Ok(value: T) | Err(msg: string)
}
