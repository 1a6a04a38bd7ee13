/** Failure-carrying result types shared by every module of the model. */
module Wrappers {

  /** A value that may be missing: JavaScript's `undefined` / `null` for an optional field. */
  datatype Option<+T> = None | Some(value: T) {
    /** `x ?? d`: the value when present, else the default. */
    function GetOr(default: T): T {
      match this
      case Some(v) => v
      case None => default
    }
  }

  /** Either a value or the error the source would throw or return. */
  datatype Result<+T, +E> = Ok(value: T) | Err(error: E)
}
