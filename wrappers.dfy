/** Option and Result, the failure-carrying values used throughout the model. */
module Wrappers {

  datatype Option<+T> = None | Some(value: T)

  /** A value or an error; C# exceptions and Go `error` returns become `Err`. */
  datatype Result<+T, +E> = Ok(value: T) | Err(error: E)
}
