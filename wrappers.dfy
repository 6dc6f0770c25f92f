/** Option and Result values for absent JavaScript properties and thrown errors. */
module Wrappers {

  /** A value that may be missing (`undefined` in the source). */
  datatype Option<+T> = None | Some(value: T) {

    /** The value if present, otherwise `default`. */
    function GetOr(default: T): T
    {
      match this
      case Some(v) => v
      case None => default
    }
  }

  /** The normal return of an asynchronous call, or the error it throws. */
  datatype Result<+R, +E> = Success(value: R) | Failure(error: E)
}
