/** Go's `(value, error)` and nil-able pointer results, as datatypes. */
module Wrappers {

  /** Go's `error`, by its message. */
  type Error = string

  /** A value that may be absent (a nil pointer in the Go program). */
  datatype Option<+T> = None | Some(value: T)

  /** Either a value or the error that replaced it. */
  datatype Result<+T, +E> = Success(value: T) | Failure(error: E)
}
