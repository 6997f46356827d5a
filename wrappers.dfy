/** Option and Result: the explicit form of Python's None and of a raised exception. */
module Wrappers {

  datatype Option<+T> = None | Some(value: T)

  /** `Failure` stands for an exception that the caller catches (or lets escape). */
  datatype Result<+T, +E> = Success(value: T) | Failure(error: E)
}
