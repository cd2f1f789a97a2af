/**
 * Optional values (C#'s nullable references and `T?`, TypeScript's
 * `undefined`) and results that are either a value or an error.
 */
module Wrappers {

  datatype Option<+T> = None | Some(value: T) {

    /** `x ?? d` */
    function GetOr(default: T): T {
      match this
      case Some(v) => v
      case None => default
    }
  }

  datatype Result<+T, +E> = Ok(value: T) | Err(error: E)
}
