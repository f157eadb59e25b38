/** Absence and failure as values: JavaScript's `null`/`undefined` and thrown errors. */
module Wrappers {

  /** A value that may be absent (`undefined` or `null` in the launcher). */
  datatype Option<+T> = None | Some(value: T) {

    /** The wrapped value, or `default` when there is none. */
    function GetOr(default: T): T {
      match this
      case Some(v) => v
      case None => default
    }
  }

  /** The outcome of a computation that may throw. */
  datatype Result<+R, +E> = Success(value: R) | Failure(error: E)
}
