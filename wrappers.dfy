/** Option and Result, used for attributes that are not yet set and for the
    exceptions the rotation estimators raise. */
module Wrappers {

  datatype Option<+T> = None | Some(value: T)

  datatype Result<+T, +E> = Ok(value: T) | Err(error: E)
}
