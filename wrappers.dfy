/** Values that may be absent, and outcomes that may be an error. */
module Wrappers {

  /** A nullable value; `None` stands for JavaScript's `null` or `undefined`. */
  datatype Option<+T> = None | Some(value: T) {

    /** The value, or `default` when absent (JavaScript's `x || default` on an array). */
    function GetOr(default: T): T {
      match this
      case Some(v) => v
      case None => default
    }
  }

  /** The outcome of a call that may throw: a value, or the thrown error's message. */
  datatype Result<+T, +E> = Ok(value: T) | Err(error: E)
}
