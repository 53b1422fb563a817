/** Option and Result, for the source's null returns and exceptions. */
module Wrappers {

  datatype Option<+T> = None | Some(value: T)

  /** Either a value or the message of the exception that replaced it. */
  datatype Result<+T> = Ok(value: T) | Err(message: string)
}
