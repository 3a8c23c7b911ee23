/** Optional values and results, used for Python's None and for raised exceptions. */
module Wrappers {

  datatype Option<+T> = None | Some(value: T) {
    /** Python's `x or default` for a value that is falsy only when it is None. */
    function GetOr(default: T): T {
      match this
      case Some(v) => v
      case None => default
    }
  }

  /** A computation that either produced a value or raised an exception with a message. */
  datatype Result<+T> = Success(value: T) | Failure(error: string)
}
