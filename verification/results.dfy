/** Failure-carrying values: the Dafny counterpart of Go's `(T, error)` returns,
    bare `error` returns and nil-able pointers. */
module Results {

  /** A value that may be absent (a Go pointer that may be nil). */
  datatype Option<+T> = None | Some(value: T)

  /** A value or an error (a Go `(T, error)` pair where exactly one is meaningful). */
  datatype Result<+T, +E> = Success(value: T) | Failure(error: E)

  /** A bare Go `error` return: nil (`Pass`) or an error value. */
  datatype Outcome<+E> = Pass | Fail(error: E)
}
