/** The two result types used throughout: a value that may be missing, and a computation that may raise. */
module Outcomes {
  datatype Option<+T> = None | Some(value: T)

  datatype Result<+T, +E> = Ok(value: T) | Err(error: E)
}
