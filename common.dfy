/** Value types shared by every part of the backend model. */
module Common {

  /** Python's `Optional[T]`: `None` or a present value. */
  datatype Option<+T> = None | Some(value: T)

  /** The outcome of an operation that either produces a value or raises. */
  datatype Result<+T, +E> = Ok(value: T) | Err(error: E)

  /** FastAPI's `HTTPException(status_code, detail)`: an error response. */
  datatype HttpError = HttpError(status: int, detail: string)
}
