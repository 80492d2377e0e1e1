/** Failure-carrying values used across the model: a lookup that may find
    nothing, and an operation that may raise. */
module Wrappers {

  /** A value that may be absent (`null` or `undefined` in the app). */
  datatype Option<+T> = None | Some(value: T) {
    function GetOr(default: T): T {
      match this
      case Some(v) => v
      case None => default
    }
  }

  /** The outcome of an operation that may throw. */
  datatype Result<+T> = Ok(value: T) | Err(message: string)
}
