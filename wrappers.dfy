/** Failure-carrying values shared by the whole model. */
module Wrappers {

  /** A value that may be absent: the C# `null` of a reference result. */
  datatype Option<+T> = None | Some(value: T)

  /** Either a value or the error that was raised instead of it. */
  datatype Result<+R, +E> = Success(value: R) | Failure(error: E)

  /** Completion of a void operation: it either returns or raises an error. */
  datatype Outcome<+E> = Pass | Fail(error: E)
}
