/** Optional values and results with an error, as the rest of the model uses them. */
module Wrappers {

  /** A value that may be missing: a JSON field that is absent (or `undefined`) is `None`. */
  datatype Option<+T> = None | Some(value: T) {

    /** The value, or `default` when there is none: JavaScript's `x || default` on objects. */
    function GetOr(default: T): T {
      match this
      case Some(v) => v
      case None => default
    }
  }

  /** The outcome of a step that can fail. */
  datatype Result<+T, +E> = Ok(value: T) | Err(error: E)
}
