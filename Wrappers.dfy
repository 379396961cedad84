/** Option and Result datatypes standing for Kotlin's nullable values and thrown exceptions. */
module Wrappers {

  /** A Kotlin value of nullable type: `None` is `null`. */
  datatype Option<+T> = None | Some(value: T) {
    /** Kotlin's elvis operator `this ?: default`. */
    function GetOr(default: T): T {
      match this
      case Some(v) => v
      case None => default
    }
  }

  /** The outcome of a request handler: a value, or the exception that aborts the request. */
  datatype Result<+R, +E> = Success(value: R) | Failure(error: E)
}
