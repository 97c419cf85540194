/** Option and Result, the two failure-carrying datatypes the model uses. */
module Wrappers {

  /** A value that may be missing: a JSON field that is absent, a nil pointer, a nil slice. */
  datatype Option<+T> = None | Some(value: T) {

    /** The value, or `default` when there is none (gjson's `.String()` of a missing field is ""). */
    function GetOr(default: T): T {
      match this
      case Some(v) => v
      case None => default
    }
  }

  /** A Go `(value, error)` pair in which exactly one side is meaningful. */
  datatype Result<+T, +E> = Success(value: T) | Failure(error: E)
}
