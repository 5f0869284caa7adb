/** Values shared by every part of the model: optional values, Ruby exceptions
    and the result of an operation that may raise one. */
module Outcomes {

  /** A value that may be nil. */
  datatype Option<+T> = None | Some(value: T)

  /** The Ruby exception classes the job record raises, rescues or lets through.
      NoMethodError is a subclass of NameError in Ruby; see `IsA`. `Other`
      stands only for classes outside the DeserializationError, TypeError,
      LoadError, NameError and ArgumentError hierarchies; a Ruby subclass of
      one of those is written as that class. */
  datatype ExceptionKind =
    | DeserializationError
    | ArgumentError
    | TypeError
    | LoadError
    | NameError
    | NoMethodError
    | Other(className: string)

  /** A raised exception: its class and its message. */
  datatype Exception = Exception(kind: ExceptionKind, message: string)

  /** Either the value an operation returned or the exception it raised. */
  datatype Result<+T> = Ok(value: T) | Err(error: Exception)

  /** How a call that returns nothing of interest ended. */
  datatype Outcome = Returns | Raises(exception: Exception)

  /** `rescue k` catches an exception of kind `e` (class hierarchy of the kinds above). */
  predicate IsA(e: ExceptionKind, k: ExceptionKind) {
    e == k || (e == NoMethodError && k == NameError)
  }
}
