/** Optional values and results with an error, standing for Python's `None`
    and for the exceptions the encoder raises. */
module Wrappers {

  datatype Option<+T> = None | Some(value: T)

  datatype Result<+T, +E> = Ok(value: T) | Err(error: E)
}
