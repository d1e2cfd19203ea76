/** Small failure-carrying wrappers shared by the other modules. */
module Basics {

  /** An optional value: Python's `None` where a value may be absent. */
  datatype Option<+T> = None | Some(value: T)

  /** A value or the error that Python would have raised instead. */
  datatype Result<+T, +E> = Success(value: T) | Failure(error: E)
}
