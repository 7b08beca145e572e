/** Failure-carrying values used throughout the model. */
module Wrappers {

  datatype Option<+T> = None | Some(value: T)

  /** An operation that either yields a value or fails with the error text
      the update manager would report. */
  datatype Result<+T> = Ok(value: T) | Err(msg: string)
}
