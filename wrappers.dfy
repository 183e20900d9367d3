/** Option and Result, the value-level stand-ins for NULL pointers and for
    calls that report failure through a bool. */
module Wrappers {

  datatype Option<+T> = None | Some(value: T)

  datatype Result<+T, +E> = Ok(value: T) | Err(error: E)
}
