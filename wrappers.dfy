/** Nullable values and error results shared by the order resource model. */
module Wrappers {

  /** A PHP value that may be `null`. */
  datatype Option<+T> = None | Some(value: T) {

    /** The null-coalescing operator: `this ?? default`. */
    function GetOr(default: T): T {
      match this
      case Some(v) => v
      case None => default
    }
  }

  /** The outcome of an expression that may throw instead of producing a value. */
  datatype Result<+T, +E> = Ok(value: T) | Err(error: E)
}
