/** Option, and the outcome of a call into a collaborator that may raise. */
module Wrappers {

  datatype Option<+T> = None | Some(value: T) {
    function GetOr(default: T): T {
      match this
      case Some(v) => v
      case None => default
    }
  }

  /** What a call did: it returned a value, or it raised an exception whose `str(e)` is `message`. */
  datatype Outcome<+T> = Returned(value: T) | Raised(message: string)
}
