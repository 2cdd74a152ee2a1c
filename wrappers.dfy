/** Optional values, as JavaScript's `undefined`/`null` and Python's `None`, and outcomes that may fail. */
module Wrappers {

  datatype Option<+T> = None | Some(value: T) {

    /** The wrapped value, or `default` when there is none (JavaScript's `x || d` on an absent field). */
    function GetOr(default: T): T
    {
      match this
      case Some(v) => v
      case None => default
    }
  }

  /** A computation that returns a value or raises; `error` names what is raised or answered. */
  datatype Result<+T> = Success(value: T) | Failure(error: string)
}
