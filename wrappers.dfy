/** Absence and failure as values, in place of None returns and raised exceptions. */
module Wrappers {

  /** `None` stands for Python's `None`: a query that failed and was caught. */
  datatype Option<+T> = None | Some(value: T)

  /** `Err` stands for an exception that the callee does not catch. */
  datatype Result<+T, +E> = Ok(value: T) | Err(error: E)
}
