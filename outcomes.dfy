/** Absent values (Java null) and the error path of an operation that throws. */
module Outcomes {

  datatype Option<+T> = None | Some(value: T) {
    function GetOr(default: T): T
    {
      match this
      case Some(v) => v
      case None => default
    }
  }

  /** The value an operation returns, or the exception it throws instead. */
  datatype Result<+T, +E> = Ok(value: T) | Err(error: E)
}
