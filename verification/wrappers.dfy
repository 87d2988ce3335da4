/** Option and Result values for the optional fields and raised errors of the system. */
module Wrappers {

  /** A value that may be absent: a missing dictionary key, a `None` argument or cookie. */
  datatype Option<+T> = None | Some(value: T)

  /** The outcome of a step that may raise: `Err` carries the exception's message. */
  datatype Result<+T> = Ok(value: T) | Err(message: string)
}
