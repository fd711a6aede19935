/** Option and Result: the model's stand-ins for `undefined` and for a thrown error. */
module Results {

  /** `None` plays JavaScript's `undefined` (or `null`); `Some(v)` a present value. */
  datatype Option<+T> = None | Some(value: T) {
    function GetOr(default: T): T {
      match this
      case Some(v) => v
      case None => default
    }
  }

  /** The outcome of a call that either returns a value or throws. */
  datatype Result<+T, +E> = Success(value: T) | Failure(error: E)
}
