/** Option and Result, for the lookups that may miss and the operations
    that answer with an error instead of a value. */
module Wrappers {
  datatype Option<+T> = None | Some(value: T)

  datatype Result<+T, +E> = Ok(value: T) | Err(error: E)
}
