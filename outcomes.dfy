/** Optional values and error-carrying results shared by every module. */
module Outcomes {

  /** A value that may be absent (Python's `Optional[...]`, `None`). */
  datatype Option<+T> = None | Some(value: T)

  /** A computed value, or the error the source raises instead. */
  datatype Result<+T, +E> = Ok(value: T) | Err(error: E)

  /** A check that either passes or names the rule it violated. */
  datatype Outcome<+E> = Pass | Fail(error: E)
}
