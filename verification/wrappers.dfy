/** Option and Result, the two failure-carrying shapes the Go code expresses with
    nil pointers and (value, error) pairs. */
module Wrappers {

  /** `None` stands for a nil pointer or a nil slice. */
  datatype Option<+T> = None | Some(value: T) {
    function GetOr(default: T): T {
      match this
      case Some(v) => v
      case None => default
    }
  }

  /** `Failure` stands for a non-nil Go `error`. */
  datatype Result<+R, +E> = Success(value: R) | Failure(error: E)
}
