/** Failure-compatible wrappers shared by every stage of the review pipeline. */
module Wrappers {

  /** A value that may be absent (Python's `None`, or a missing dict key). */
  datatype Option<+T> = None | Some(value: T) {
    function GetOr(default: T): T {
      match this
      case Some(v) => v
      case None => default
    }
  }

  /** The outcome of a step that may raise: its value, or the text of the exception (`str(e)`). */
  datatype Result<+T> = Ok(value: T) | Err(message: string) {
    function GetOr(default: T): T {
      match this
      case Ok(v) => v
      case Err(_) => default
    }
  }
}
