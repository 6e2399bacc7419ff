/** Values shared by every controller: optional values, and the error a
    controller raises (an HTTP status and a message) instead of a result. */
module Common {

  datatype Option<T> = None | Some(value: T)

  /** An error a controller raises with an explicit status code. */
  datatype Failure = Failure(status: int, message: string)

  /** What a controller sends: a value, or the error it passes to the
      error-handling middleware. */
  datatype Result<T> = Ok(value: T) | Err(error: Failure)
}
