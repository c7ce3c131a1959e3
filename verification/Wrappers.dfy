/** Optional values and results with an error, used for JavaScript's nullable
    values and for the errors the service throws. */
module Wrappers {

  /** A value that may be absent (`null` or `undefined` in the app). */
  datatype Option<+T> = None | Some(value: T) {

    /** The value when present, `default` otherwise. */
    function GetOr(default: T): T {
      match this
      case Some(v) => v
      case None => default
    }
  }

  /** Either a value or the error that was thrown instead. */
  datatype Result<+T, +E> = Ok(value: T) | Err(error: E)
}
