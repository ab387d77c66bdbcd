/** Optional values and success-or-error results, used wherever the Python
    code returns `None` or raises an exception. */
module Results {

  /** A value that may be absent (Python's `Optional[T]`). */
  datatype Option<+T> = None | Some(value: T) {

    /** The wrapped value, or `default` when absent (Python's
        `dict.get(key, default)` on a missing key). */
    function GetOr(default: T): T {
      match this
      case Some(v) => v
      case None => default
    }
  }

  /** Either a computed value or the error the Python code would raise. */
  datatype Result<+T, +E> = Ok(value: T) | Err(error: E)
}
