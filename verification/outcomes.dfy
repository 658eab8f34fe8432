/** Failure-carrying wrappers shared by the simulation modules. */
module Outcomes {

  /** An optional value: Python's `None` or a present value. */
  datatype Option<+T> = None | Some(value: T)

  /** The value of a computation, or the error the original code raises instead. */
  datatype Result<+T, +E> = Ok(value: T) | Err(error: E)
}
