/** Option and Result: the absent value (`null`/`undefined`) and an answer that may fail. */
module Wrappers {

  datatype Option<+T> = None | Some(value: T)

  /** The answer of an external service: a value, or the error message it raised. */
  datatype Result<+T> = Ok(value: T) | Err(error: string)
}
