/** The optional value that stands for a Go pointer that may be nil, and the
    outcome of a call that returns a value or an error. */
module Wrappers {

  datatype Option<+T> = None | Some(value: T) {

    /** The value, or `default` when there is none. */
    function GetOr(default: T): T {
      match this
      case Some(v) => v
      case None => default
    }
  }

  /** A Go `(value, err)` pair: the value when `err` is nil, otherwise the
      text of the error. */
  datatype Result<+T> = Success(value: T) | Failure(error: string) {

    /** The value, or `default` when the call failed. */
    function GetOr(default: T): T {
      match this
      case Success(v) => v
      case Failure(_) => default
    }
  }
}
