/** Option and Result, used across the model for JavaScript's `null`/`undefined`
    and for operations that throw. */
module Wrappers {

  datatype Option<+T> = None | Some(value: T) {
    function GetOr(default: T): T
    {
      match this
      case Some(v) => v
      case None => default
    }
  }

  /** A computation that either produced a value or threw an Error with a message. */
  datatype Result<+T> = Ok(value: T) | Err(message: string)
}
