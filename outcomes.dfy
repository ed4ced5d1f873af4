/** Optional values and the outcome of a call into code outside the model. */
module Outcomes {

  /** A value that may be absent (JavaScript `undefined` / `null`). */
  datatype Option<T> = None | Some(value: T) {

    /** The value, or `default` when absent: JavaScript's `x ?? default`. */
    function GetOr(default: T): T {
      match this
      case Some(v) => v
      case None => default
    }
  }

  /** What an awaited call does: it returns a value or throws an error carrying a message. */
  datatype Outcome<T> = Returns(value: T) | Throws(message: string)
}
