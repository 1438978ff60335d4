/** Failure-carrying datatypes used across the model. */
module Wrappers {

  /** A value that may be absent (Python's `None`). */
  datatype Option<+T> = None | Some(value: T)

  /** The outcome of an operation that may raise instead of returning. */
  datatype Result<+T, +E> = Ok(value: T) | Err(error: E)

  /** The Python exceptions the modelled code raises or lets escape. */
  datatype Raised =
    | KeyError(key: string)
    | ValueError(message: string)
    | IndexError(message: string)
    | RuntimeError(message: string)
    | BackendError(message: string)
}
