/** Optional values and results shared by the cache model. */
module Wrappers {

  datatype Option<+T> = None | Some(value: T) {
    function GetOr(default: T): T {
      match this
      case Some(v) => v
      case None => default
    }
  }

  /** A value, or the error a source function would have thrown. */
  datatype Result<+T, +E> = Ok(value: T) | Err(error: E)
}
