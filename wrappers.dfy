/** Optional values and results shared by the mesh planner and the pattern generator. */
module Wrappers {

  /** A value that may be absent: a missing dictionary key, a parse that failed. */
  datatype Option<+T> = None | Some(value: T) {

    predicate IsFailure() {
      None?
    }

    function PropagateFailure<U>(): Option<U>
      requires None?
    {
      None
    }

    function Extract(): T
      requires Some?
    {
      value
    }

    /** The value, or `default` when absent (Python's `dict.get(key, default)`). */
    function GetOr(default: T): T {
      match this
      case Some(v) => v
      case None => default
    }
  }

  /** Either a result or the error that the script would raise instead. */
  datatype Result<+T, +E> = Ok(value: T) | Err(error: E)
}
