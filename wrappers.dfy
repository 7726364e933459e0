/** Optional values and results, as the contact model and its parsers use them. */
module Wrappers {

  /** A value that may be absent: TypeScript's `T | null` and `T | undefined`. */
  datatype Option<+T> = None | Some(value: T) {

    /** The value, or `default` when absent (the `??` operator). */
    function GetOr(default: T): T {
      match this
      case Some(v) => v
      case None => default
    }
  }

  /** The outcome of a parse that either yields a value or reports an error. */
  datatype Result<+T, +E> = Ok(value: T) | Err(error: E)
}
