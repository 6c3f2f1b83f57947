/** Option and Result values for the backend's "None" returns and its error responses. */
module Wrappers {

  datatype Option<+T> = None | Some(value: T)

  /** An operation that either produces a value or answers with the error message the backend sends. */
  datatype Result<+T> = Ok(value: T) | Err(error: string)
}
