/** Optional values (Python's None) and outcomes that may have raised. */
module Wrappers {

  datatype Option<+T> = None | Some(value: T) {
    function GetOr(default: T): T
    {
      match this
      case Some(v) => v
      case None => default
    }
  }

  /** The value of a Python call, or the name of the exception it raised. */
  datatype Result<+T> = Ok(value: T) | Raised(exception: string)
}
