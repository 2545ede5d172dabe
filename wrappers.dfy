/** Option and Result values used throughout the model. */
module Wrappers {

  datatype Option<+T> = None | Some(value: T) {
    function GetOr(fallback: T): T {
      match this
      case Some(v) => v
      case None => fallback
    }
  }

  /** `Failure` carries an exception that the modelled Python code lets escape. */
  datatype Result<+T, +E> = Success(value: T) | Failure(error: E)
}
