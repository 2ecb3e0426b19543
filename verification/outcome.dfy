/**
 The outcome of an operation the source can abandon by throwing an
 `ArgumentException`: either the new value or the exception's message.
 Every state is an immutable value, so a failed operation leaves the
 caller's accumulator exactly as it was.
 */
module Outcomes {

  datatype Result<+T> = Success(value: T) | Failure(error: string)
}
