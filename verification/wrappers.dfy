/** Optional values and Go-style value-or-error results. */
module Wrappers {

  /** An optional value; `None` also stands for Go's nil. */
  datatype Option<+T> = None | Some(value: T)

  /** A value or an error, as a Go `(T, error)` pair where exactly one side is meaningful. */
  datatype Result<+R, +E> = Success(value: R) | Failure(error: E)
}
