/** Option, Result and Outcome: how the model represents Python's missing values and raised exceptions. */
module Wrappers {

  datatype Option<+T> = None | Some(value: T)

  /** A value, or the exception that the Python code raises instead. */
  datatype Result<+T, +E> = Ok(value: T) | Err(error: E)

  /** Completion without a value: the function returned normally, or raised. */
  datatype Outcome<+E> = Pass | Fail(error: E)
}
