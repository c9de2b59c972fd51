/** Option and Result: the Go code's nil pointers and (value, error) pairs. */
module Wrappers {

  datatype Option<+T> = None | Some(value: T) {
    function GetOr(default: T): T {
      match this
      case Some(v) => v
      case None => default
    }
  }

  datatype Result<+R, +E> = Ok(value: R) | Err(error: E) {
    function GetOr(default: R): R {
      match this
      case Ok(v) => v
      case Err(_) => default
    }
  }
}
