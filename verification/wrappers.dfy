/** Option and Result values used for "not found" answers and startup faults. */
module Wrappers {

  /** A value that may be missing: JavaScript's `undefined` / an absent key. */
  datatype Option<+T> = None | Some(value: T) {

    /** Returns the wrapped value, or `default` when there is none. */
    function GetOr(default: T): (r: T)
      ensures Some? ==> r == value
      ensures None? ==> r == default
    {
      match this
      case Some(v) => v
      case None => default
    }
  }

  /** Either a value or the fault that prevented computing it. */
  datatype Result<+R, +E> = Success(value: R) | Failure(error: E)
}
