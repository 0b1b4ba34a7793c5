/** Failure-carrying result types shared by every module: Go's `(value, error)`
    pairs and bare `error` returns become these. */
module Wrappers {

  datatype Option<+T> = None | Some(value: T) {
    function GetOr(default: T): T {
      match this
      case Some(v) => v
      case None => default
    }
  }

  /** A value or an error: Go's `(T, error)` return. */
  datatype Result<+T, +E> = Success(value: T) | Failure(error: E)

  /** An error or nothing: Go's bare `error` return (`Pass` is `nil`). */
  datatype Outcome<+E> = Pass | Fail(error: E)
}
