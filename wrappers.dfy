/** Small failure-carrying datatypes shared by the other modules. */
module Wrappers {

  /** A value that may be absent: a request body that could not be decoded is None. */
  datatype Option<+T> = None | Some(value: T)

  /** The result of a Go call that returns only an `error`: Pass is `nil`, Fail carries the error. */
  datatype Outcome<+E> = Pass | Fail(error: E)
}
