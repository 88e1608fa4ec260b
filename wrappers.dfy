/** Optional values (TypeScript's `undefined` / `null`) and results of calls that may throw. */
module Wrappers {

  datatype Option<+T> = None | Some(value: T) {
    function GetOr(default: T): T {
      match this
      case Some(v) => v
      case None => default
    }
  }

  /** A call that either returns `value` or throws an `Error` carrying `message`. */
  datatype Result<+T> = Success(value: T) | Failure(message: string)
}
