/** Failure-carrying values used where the source raises or returns nothing. */
module Wrappers {

  datatype Option<+T> = None | Some(value: T)

  /** A value, or the text of the exception that replaced it. */
  datatype Result<+T> = Ok(value: T) | Fault(message: string)

  /** Success, or the text of the exception raised instead. */
  datatype Outcome = Pass | Fail(message: string)
}
