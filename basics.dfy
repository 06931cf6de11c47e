/** Small value types shared by every module of the model. */
module Basics {

  /** A value that may be absent: Python's None / a missing dictionary key. */
  datatype Option<+T> = None | Some(value: T) {
    function GetOr(default: T): (r: T)
      ensures Some? ==> r == value
      ensures None? ==> r == default
    {
      match this
      case Some(v) => v
      case None => default
    }
  }

  /** An HTTP error raised by a handler (FastAPI's HTTPException). */
  datatype HttpError = HttpError(status: int, detail: string)

  /** The outcome of a request handler: its response, or the HTTP error it raised. */
  datatype Result<+T> = Ok(value: T) | Err(error: HttpError)

  function Min(a: int, b: int): (r: int)
    ensures r <= a && r <= b && (r == a || r == b)
  {
    if a <= b then a else b
  }
}
