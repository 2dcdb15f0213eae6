/** Failure-compatible wrappers used for Go's `(value, ok)` and `(value, error)` returns. */
module Wrappers {

  /** A value that may be absent: Go's `ok == false`, or a nil interface value. */
  datatype Option<+T> = None | Some(value: T)

  /** A value or the error that replaced it. */
  datatype Result<+T, +E> = Ok(value: T) | Fail(error: E)
}
