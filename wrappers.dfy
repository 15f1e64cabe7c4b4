/** Optional values and success/failure results used throughout the model. */
module Wrappers {

  /** A value that may be absent (a JavaScript `undefined` field). */
  datatype Option<+T> = None | Some(value: T) {
    function GetOr(default: T): T {
      match this
      case Some(v) => v
      case None => default
    }
  }

  /** The outcome of an operation that can throw: a value, or the thrown message. */
  datatype Result<+T> = Success(value: T) | Failure(error: string)
}
