/** Optional values and results with an error, the shapes of Python's `None` and of an exception. */
module Wrappers {

  datatype Option<+T> = None | Some(value: T) {
    /** `d.get(key, default)` once the lookup has been done. */
    function GetOr(default: T): T {
      if Some? then value else default
    }
  }

  /** `Err` carries the text `str(e)` of the exception that was raised. */
  datatype Result<+T, +E> = Ok(value: T) | Err(error: E)
}
