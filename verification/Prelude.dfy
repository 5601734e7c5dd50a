/** Optional values and error-carrying results, used throughout the model for
    JavaScript's `undefined` and for thrown exceptions. */
module Prelude {

  /** A value that may be absent (`undefined` or `null` in the source). */
  datatype Option<+T> = None | Some(value: T) {

    /** The carried value, or `default` when absent. */
    function GetOr(default: T): T {
      match this
      case Some(v) => v
      case None => default
    }
  }

  /** The outcome of a step that may throw: either a value or the error it raised. */
  datatype Result<+R, +E> = Ok(value: R) | Err(error: E)
}
