/** Failure-compatible wrappers shared by the modules of the quiz platform model. */
module Wrappers {

  /** A value that may be missing: JavaScript's `undefined` / `null`. */
  datatype Option<+T> = None | Some(value: T)

  /** The outcome of an operation that the source rejects with a message. */
  datatype Result<+T, +E> = Ok(value: T) | Err(error: E)
}
