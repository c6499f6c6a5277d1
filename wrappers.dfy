/** Option and Result, used where the Go code returns nil or an error. */
module Wrappers {

  /** A Go pointer or slice that may be nil: `None` is nil. */
  datatype Option<+T> = None | Some(value: T)

  /** A Go `(value, error)` pair where exactly one side is meaningful. */
  datatype Result<+T, +E> = Success(value: T) | Failure(error: E)
}
