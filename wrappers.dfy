/** Small value types shared by the three guards and the route that chains them. */
module Wrappers {

  /** A value that may be unset (Python's `None`). */
  datatype Option<+T> = None | Some(value: T)

  /** What one invocation of a wrapped callable does: return a value or raise an exception. */
  datatype Outcome<+T, +E> = Ok(value: T) | Err(error: E)
}
