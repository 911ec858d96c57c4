/** Option and Result values used where the source returns null, omits an
    argument, or throws an Error with a message. */
module Wrappers {

  datatype Option<+T> = None | Some(value: T) {
    /** The value, or `default` when absent (a JavaScript default parameter). */
    function GetOr(default: T): T {
      match this
      case Some(v) => v
      case None => default
    }
  }

  /** `Failure(message)` stands for `throw new Error(message)`. */
  datatype Result<+T, +E> = Success(value: T) | Failure(error: E)
}
