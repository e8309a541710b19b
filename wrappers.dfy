/** Failure-carrying values shared by the whole model. */
module Wrappers {

  /** A value that may be absent (`undefined` / `null` in the TypeScript program). */
  datatype Option<+T> = None | Some(value: T)

  /** The outcome of an operation that may throw: the value, or the thrown error's message. */
  datatype Result<+T> = Ok(value: T) | Err(message: string)
}
