/** Values that may be missing, and outcomes that may have failed. */
module Optional {

  /** A value that may be absent: a missing dictionary key, a Python `None`,
      or a pandas aggregate that is undefined (NaN) because it divided by zero. */
  datatype Option<T> = None | Some(value: T) {

    /** The value, or `default` when there is none (Python's `d.get(k, default)`). */
    function GetOr(default: T): T {
      match this
      case Some(v) => v
      case None => default
    }
  }

  /** The outcome of a call that may raise: `Failure` carries the exception's message. */
  datatype Result<T, E> = Success(value: T) | Failure(error: E)
}
