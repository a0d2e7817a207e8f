/** Option and Result values used where the Go code returns nil or an error. */
module Wrappers {

  /** A value that may be absent: Go's nil or AQL's null. */
  datatype Option<+T> = None | Some(value: T)
  {
    function GetOr(default: T): T
    {
      match this
      case Some(v) => v
      case None => default
    }
  }

  /** The outcome of a call that returns `(value, error)` in Go. */
  datatype Result<+T, +E> = Ok(value: T) | Fail(error: E)
}
