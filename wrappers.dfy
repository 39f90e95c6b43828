/** Small value wrappers shared by every module of the model. */
module Wrappers {

  /** Python's "a value or None". */
  datatype Option<+T> = None | Some(value: T)

  /** The result of running Python code that either returns a value or raises. */
  datatype Outcome<+T, +E> = Returned(value: T) | Raised(error: E)
}
