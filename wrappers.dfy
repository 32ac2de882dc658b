/** Optional values and results with an error, for JavaScript's `undefined` and `throw`. */
module Wrappers {

  /** A value that may be absent (a JavaScript property that is `undefined`). */
  datatype Option<+T> = None | Some(value: T) {
    function GetOr(default: T): T {
      match this
      case Some(v) => v
      case None => default
    }
  }

  /** The outcome of an operation that may throw: its value, or the thrown message. */
  datatype Result<+T, +E> = Success(value: T) | Failure(error: E)
}
