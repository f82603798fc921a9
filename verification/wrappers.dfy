/** Option and Result, the failure-carrying values every operation of the model returns,
    plus Python's truthiness test on an optional string. */
module Wrappers {

  /** A value that may be absent: Python's `None` or an object. */
  datatype Option<+T> = None | Some(value: T)

  /** Either the value an operation returns or the exception it raises. */
  datatype Result<+R, +E> = Success(value: R) | Failure(error: E)

  /** Python's `if s:` on a value that is either `None` or a string:
      both `None` and the empty string are false. */
  predicate Truthy(s: Option<string>)
  {
    s.Some? && s.value != ""
  }
}
