/** Value-or-failure wrappers shared by the model. */
module Wrappers {

  /** A provider response that either yields a value or fails (network error, missing JSON path). */
  datatype Option<T> = None | Some(value: T)

  /** The arithmetic and indexing exceptions the Python code can raise. */
  datatype Fault = ZeroDivision | IndexOutOfRange

  /** A computed value, or the exception that aborted its computation. */
  datatype Result<T> = Ok(value: T) | Err(fault: Fault)
}
