/** Optional values and success/failure outcomes shared by every module. */
module Wrappers {

  /** A value that may be absent: JavaScript's `undefined`/`null` beside a value. */
  datatype Option<+T> = None | Some(value: T) {
    function GetOr(default: T): T {
      match this
      case Some(v) => v
      case None => default
    }
  }

  /** The outcome of an awaited call that may throw. */
  datatype Result<+T, +E> = Success(value: T) | Failure(error: E)
}
