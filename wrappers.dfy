/** Option and Result, for Go's nil-or-value and (value, error) returns. */
module Wrappers {

  /** A value that may be absent; None stands for Go's nil error. */
  datatype Option<+T> = None | Some(value: T)

  /** Either a value or an error message. */
  datatype Result<+R, +E> = Success(value: R) | Failure(error: E)
}
