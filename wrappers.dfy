/** Option and Result values, used wherever the source works with
    `null`/`undefined` or with a resolved/rejected promise. */
module Wrappers {

  datatype Option<+T> = None | Some(value: T) {
    /** The value, or `default` when there is none. The source writes
        `x || ''`; with the empty text as the default, `||` and `??` agree. */
    function GetOr(default: T): T {
      match this
      case Some(v) => v
      case None => default
    }
  }

  /** `Success` is a resolved promise or a normal return, `Failure` a rejection or a thrown error. */
  datatype Result<+R, +E> = Success(value: R) | Failure(error: E)
}
