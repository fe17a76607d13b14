/** Python exceptions raised in the reviewer, and the Option/Result wrappers
    the model uses in place of raising them. */
module Failures {

  /** The exception classes the reviewer's handlers tell apart. A
      FileNotFoundError is a kind of OSError; a decoding failure while
      reading text is a kind of ValueError and is reported as one. */
  datatype Exception =
    | ValueError(message: string)
    | OSError(message: string)
    | FileNotFoundError(message: string)
    | OtherException(message: string)
  {
    /** `isinstance(e, ValueError)` */
    predicate IsValueError() { ValueError? }

    /** `isinstance(e, OSError)` */
    predicate IsOSError() { OSError? || FileNotFoundError? }
  }

  datatype Option<+T> = None | Some(value: T)

  /** A value, or the exception that was raised instead of returning one. */
  datatype Result<+T> = Success(value: T) | Failure(error: Exception)
}
