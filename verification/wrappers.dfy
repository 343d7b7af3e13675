/** Small failure-carrying datatypes shared by the model. */
module Wrappers {

  /** A value that may be absent: JavaScript's `undefined`/`null` slot. */
  datatype Option<+T> = None | Some(value: T) {

    /** The carried value, or `default` when absent (JavaScript's `??`). */
    function GetOr(default: T): T
    {
      match this
      case Some(v) => v
      case None => default
    }
  }

  /** Either a value or the message of the `Error` that was thrown instead. */
  datatype Result<+T> = Ok(value: T) | Err(message: string)
}
