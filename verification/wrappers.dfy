/** Failure-carrying values used where the Go code returns an error, a nil pointer or panics. */
module Wrappers {

  /** A value that may be absent (a nil pointer, a missing map entry). */
  datatype Option<T> = None | Some(value: T)

  /** A value or the text of the error that replaced it. */
  datatype Result<T> = Success(value: T) | Failure(error: string)

  /** Success without a value, or the text of an error (or of a panic). */
  datatype Outcome = Pass | Fail(error: string)
}
