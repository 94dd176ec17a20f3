/** Option and Result, the failure-carrying values used throughout the model. */
module Wrappers {

  /** A value that may be missing: JavaScript's `null` / `undefined`. */
  datatype Option<+T> = None | Some(value: T) {
    function GetOr(default: T): T {
      match this
      case Some(v) => v
      case None => default
    }
  }

  /** A computation that either yields a value or throws with a message. */
  datatype Result<+R> = Success(value: R) | Failure(error: string)
}
