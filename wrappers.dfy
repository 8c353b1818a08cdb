/** Optional values (JavaScript `undefined`/`null`) and results of operations that can throw. */
module Wrappers {

  /** A value that may be absent: `None` stands for `undefined` or `null`. */
  datatype Option<+T> = None | Some(value: T) {

    /** The value, or `default` when absent (JavaScript's `??`). */
    function GetOr(default: T): T {
      match this
      case Some(v) => v
      case None => default
    }
  }

  /** The outcome of an operation that either returns a value or throws an error with a message. */
  datatype Result<+T> = Ok(value: T) | Err(message: string)
}
