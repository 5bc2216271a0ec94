/** Option and Result wrappers shared by every module of the model. */
module Wrappers {
  /** A value that may be absent (Python `None`). */
  datatype Option<T> = None | Some(value: T)

  /** The Python exception a failing operation raises. */
  datatype Error =
    | ValueError(message: string)
    | KeyError(key: string)
    | IndexError
    | ZeroDivisionError

  /** The outcome of an operation that can raise. */
  datatype Result<T> = Ok(value: T) | Err(error: Error)
}
