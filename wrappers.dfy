/** Optional values and results with an error, used for the table's optional
    configuration fields and for the errors a call can throw. */
module Wrappers {

  datatype Option<+T> = None | Some(value: T)

  datatype Result<+T, +E> = Ok(value: T) | Err(error: E)
}
