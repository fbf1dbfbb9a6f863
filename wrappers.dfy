/** Option and Result values standing in for JavaScript's null returns and thrown Errors. */
module Wrappers {

  datatype Option<T> = None | Some(value: T)

  /** A computation that either produced a value or threw an Error with the given message. */
  datatype Result<T> = Ok(value: T) | Err(message: string)
}
