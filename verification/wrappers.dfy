/** Optional values and results with an error, as the rest of the model uses them. */
module Wrappers {

  /** A value that may be missing (`undefined` / `null` in the source). */
  datatype Option<+T> = None | Some(value: T) {
    /** The value when present, `default` otherwise. */
    function GetOr(default: T): T {
      match this
      case Some(v) => v
      case None => default
    }
  }

  /** The outcome of an operation that may throw: a value or the error's message. */
  datatype Result<+R, +E> = Success(value: R) | Failure(error: E)
}
