/** Option and Result, the two failure-carrying values the model is built on. */
module Wrappers {

  /** A value that may be absent (JavaScript's `undefined` / `null`). */
  datatype Option<T> = None | Some(value: T) {
    function GetOr(default: T): T {
      match this
      case Some(v) => v
      case None => default
    }
  }

  /** The outcome of an operation that may throw: `Ok` is a resolved value, `Err` a thrown error. */
  datatype Result<T, E> = Ok(value: T) | Err(error: E)
}
