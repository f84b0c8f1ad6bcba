/** Failure-compatible value wrappers shared by the rest of the model. */
module Wrappers {

  /** A value that may be absent: a missing dictionary key or an unset variable. */
  datatype Option<+T> = None | Some(value: T) {

    /** The wrapped value, or `default` when absent (Python's `d.get(key, default)`). */
    function GetOr(default: T): (r: T)
      ensures Some? ==> r == value
      ensures None? ==> r == default
    {
      match this
      case Some(v) => v
      case None => default
    }
  }

  /** Either a value or the message of the exception raised instead of it. */
  datatype Result<+R> = Success(value: R) | Failure(error: string)
}
