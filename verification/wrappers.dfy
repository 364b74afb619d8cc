/** Optional values and the outcome of a Kotlin call that may throw. */
module Wrappers {

  /** A Kotlin nullable value: `null` is None. */
  datatype Option<+T> = None | Some(value: T) {
    /** Kotlin's elvis operator `this ?: default`. */
    function GetOr(default: T): T {
      match this
      case Some(v) => v
      case None => default
    }
  }

  /** The outcome of a Kotlin call: it returned a value, or it threw an
      exception whose `message` may be null. */
  datatype Try<+T> = Ok(value: T) | Thrown(message: Option<string>)
}
