/** Option and Result values shared by the other modules. */
module Wrappers {

  /** A value that may be absent, as Python's `None`. */
  datatype Option<T> = None | Some(value: T)

  /** The outcome of a call that may raise: a value, or the message `str(e)` of the exception. */
  datatype Result<T> = Ok(value: T) | Err(message: string)
}
