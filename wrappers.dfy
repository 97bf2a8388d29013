/** Failure-carrying wrappers shared by every module of the model. */
module Wrappers {

  /** A value that may be absent: JavaScript's `null` / `undefined`. */
  datatype Option<+T> = None | Some(value: T) {

    /** The value, or `default` when absent. */
    function GetOr(default: T): T {
      match this
      case Some(v) => v
      case None => default
    }
  }

  /** The three kinds of error the services throw and the routes answer with. */
  datatype Error =
    | Validation(message: string)    // rejected before anything is written
    | NotFound(message: string)      // the referenced record does not exist
    | Unauthorized(message: string)  // the record exists but belongs to another user

  /** The outcome of an operation that either returns a value or throws. */
  datatype Result<+T> = Ok(value: T) | Err(error: Error)
}
