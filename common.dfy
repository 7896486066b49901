/** Failure-carrying wrappers shared by every module of the model. */
module Common {

  /** A value that may be absent: Python's `None`, JavaScript's `null`. */
  datatype Option<+T> = None | Some(value: T)

  /** The outcome of an operation that either produces a value or fails. */
  datatype Result<+T, +E> = Ok(value: T) | Err(error: E)

  /** An HTTP error raised by a handler: FastAPI's `HTTPException(status_code, detail)`. */
  datatype HttpError = HttpError(status: int, detail: string)
}
