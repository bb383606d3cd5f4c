/** Failure-carrying values used in place of Go's `nil` results and `error` returns. */
module Wrappers {

  /** `None` stands for Go's `nil`; `Some(v)` for a non-nil value. */
  datatype Option<+T> = None | Some(value: T)

  /** A value or an error, as returned by a Go function of type `(T, error)`. */
  datatype Result<+R, +E> = Success(value: R) | Failure(error: E)

  /** The first of two optional values that is present. */
  function FirstOf<T>(a: Option<T>, b: Option<T>): Option<T>
  {
    if a.Some? then a else b
  }
}
