/** Optional values and results with an error, as the services return them. */
module Wrappers {

  /** A value that may be absent: TypeScript's `T | null | undefined`. */
  datatype Option<+T> = None | Some(value: T) {
    /** The `??` operator: the value if present, else `default`. */
    function GetOr(default: T): T {
      match this
      case Some(v) => v
      case None => default
    }
  }

  /** The outcome of a service call: a value, or the exception it throws. */
  datatype Result<+T, +E> = Ok(value: T) | Err(error: E)
}
