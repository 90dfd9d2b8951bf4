/** Option, Outcome and Result wrappers shared by the backup model. */
module Wrappers {

  /** A value that may be absent; `None` stands for a C# `null` result. */
  datatype Option<+T> = None | Some(value: T)

  /** A step that either completes or throws an exception carrying `message`. */
  datatype Outcome = Pass | Fail(message: string)

  /** A value, or the message of the exception thrown while computing it. */
  datatype Result<+T> = Success(value: T) | Failure(error: string)
}
