/** Failure-carrying results shared by the models of the publisher and the token store. */
module Wrappers {

  /** A value that may be absent: Go's nil pointer, nil slice or nil error. */
  datatype Option<+T> = None | Some(value: T)

  /** The `(value, error)` pair Go functions return, with the error rendered as its message. */
  datatype Result<+T> = Ok(value: T) | Err(error: string)
}
