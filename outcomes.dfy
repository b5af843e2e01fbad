/** Optional values and results with an error, used by every other module. */
module Outcomes {

  /** A value that may be absent: `null`/`undefined` in the source, or a missing key. */
  datatype Option<+T> = None | Some(value: T) {

    /** The value, or `default` when absent (the `a ?? b` / "key omitted" reading). */
    function GetOr(default: T): T {
      match this
      case Some(v) => v
      case None => default
    }
  }

  /** The outcome of an operation that either resolves with a value or rejects with an error. */
  datatype Result<+T, +E> = Success(value: T) | Failure(error: E)
}
