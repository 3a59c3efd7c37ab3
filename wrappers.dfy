// Small failure-compatible wrappers shared by every module of the model.
module Wrappers {

  /** The conventional Some/None datatype, used for the source's optional fields. */
  datatype Option<+T> = None | Some(value: T)

  /** The value computed by an operation, or the error the source raises. */
  datatype Result<+R> = Ok(value: R) | Err(message: string)
}
