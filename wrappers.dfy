/** Option and Either-style Result used by the conversation manager. */
module Wrappers {

  datatype Option<+T> = None | Some(value: T) {
    /** The wrapped value, or `default` when absent (JavaScript's `??`). */
    function GetOr(default: T): T {
      match this
      case Some(v) => v
      case None => default
    }
  }

  /** The two-variant result of `talkWithGPT`: `Left` carries the failure, `Right` the success value. */
  datatype Result<+L, +R> = Left(error: L) | Right(value: R)
}
