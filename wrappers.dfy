/** Small value wrappers shared by every module of the model. */
module Wrappers {

  /** A value that may be missing. For a JSON field, `None` means the key is
      absent, which JavaScript reads as `undefined`. */
  datatype Option<T> = None | Some(value: T) {
    function GetOr(default: T): (r: T)
      ensures Some? ==> r == value
      ensures None? ==> r == default
    {
      match this
      case Some(v) => v
      case None => default
    }
  }

  /** How an `async` function's promise settles: with a value, or by
      rejecting because an exception escaped it. */
  datatype Settled<T> = Resolved(value: T) | Rejected
}
