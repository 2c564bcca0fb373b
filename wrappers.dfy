/** Option and Result: the nil pointers and (value, error) pairs of the Go code. */
module Wrappers {

  datatype Option<+T> = None | Some(value: T)

  /** A Go `(value, error)` pair where exactly one side is meaningful; `msg` is `err.Error()`. */
  datatype Result<+T> = Ok(value: T) | Err(msg: string)
}
