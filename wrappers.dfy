/** Optional values and pass/fail outcomes, used where the source has `null`/`undefined` or a rejected promise. */
module Wrappers {

  datatype Option<+T> = None | Some(value: T) {
    /** The value, or `default` when there is none (JavaScript's `??`). */
    function GetOr(default: T): T {
      match this
      case Some(v) => v
      case None => default
    }
  }

  /** The settled state of a promise that carries no value: resolved, or rejected with a message. */
  datatype Outcome<+E> = Pass | Fail(error: E)
}
