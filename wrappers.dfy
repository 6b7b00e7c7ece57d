/** Failure-carrying datatypes shared by every module of the model. */
module Wrappers {

  /** A value that may be absent; in JSON terms `null` (or `None` in Python). */
  datatype Option<+T> = None | Some(value: T)

  /** The outcome of an operation that either returns a value or throws an
      `Error` whose `message` is `error`. */
  datatype Result<+T> = Ok(value: T) | Err(error: string)
}
