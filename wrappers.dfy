/** Option and Outcome: the Go pattern of "a value or nothing" and "nil or an error". */
module Wrappers {

  datatype Option<+T> = None | Some(value: T)

  /** Pass models a nil error, Fail(e) a non-nil one. */
  datatype Outcome<+E> = Pass | Fail(error: E)
}
