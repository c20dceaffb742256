/** Option and Result values, and the HTTP error an endpoint raises, shared
    by every module of the model. */
module Wrappers {

  datatype Option<+T> = None | Some(value: T) {
    function GetOr(default: T): T {
      match this
      case Some(v) => v
      case None => default
    }
  }

  datatype Result<+R, +E> = Ok(value: R) | Err(error: E)

  /** An HTTP error response: status code and detail message. */
  datatype HttpError = HttpError(status: int, detail: string)
}
