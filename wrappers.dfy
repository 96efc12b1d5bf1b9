/** Option and Result, used for the table lookups that can miss and for the
    calculation's error path. */
module Wrappers {

  datatype Option<+T> = None | Some(value: T)

  datatype Result<+T, +E> = Ok(value: T) | Err(error: E)
}
