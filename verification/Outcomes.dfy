/** Results of operations that may find nothing or may raise. */
module Outcomes {

  datatype Option<+T> = None | Some(value: T)

  /** What a Python call leaves behind: a value, or the exception it raised. */
  datatype Attempt<+T, +E> = Done(value: T) | Raised(error: E)
}
