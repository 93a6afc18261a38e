/** Option and Result values shared by both sides of the channel. */
module Wrappers {

  /** A value that may be absent (JavaScript's null / undefined). */
  datatype Option<+T> = None | Some(value: T)

  /** The outcome of a call that may throw: its value, or the exception's message. */
  datatype Result<+T> = Ok(value: T) | Failure(message: string)
}
