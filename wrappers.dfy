/** Option and Result, the failure-carrying values used for Python's exceptions. */
module Wrappers {

  datatype Option<+T> = None | Some(value: T)

  /** `Err` stands for the exception the Python code raises at that point. */
  datatype Result<+T, +E> = Ok(value: T) | Err(error: E)
}
