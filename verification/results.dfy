/** Optional values and success-or-error values, used wherever the bots either
    find something or not, and either finish a step or raise. */
module Results {

  /** A value that may be absent: a missing dictionary key, an absent HTML node. */
  datatype Option<+T> = None | Some(value: T) {

    /** The value, or `default` when absent (Python's `dict.get(key, default)`). */
    function GetOr(default: T): T {
      match this
      case Some(v) => v
      case None => default
    }
  }

  /** The outcome of a step that can raise: its value, or the error it raised. */
  datatype Result<+T, +E> = Ok(value: T) | Err(error: E)
}
