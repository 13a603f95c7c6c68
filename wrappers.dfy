/** Optional values and failure-carrying results. */
module Wrappers {

  datatype Option<+T> = None | Some(value: T) {
    /** The wrapped value, or `default` when there is none (Python's `d.get(k, default)`). */
    function GetOr(default: T): T {
      match this
      case Some(v) => v
      case None => default
    }
  }

  /** `Failure` stands for a Python exception, carrying the text `str(e)` would give. */
  datatype Result<+R, +E> = Success(value: R) | Failure(error: E)
}
