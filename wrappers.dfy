/** Optional values and error-carrying results, used where the application
    reads a possibly-missing value or reports a validation failure. */
module Wrappers {

  datatype Option<T> = None | Some(value: T)

  datatype Result<T, E> = Ok(value: T) | Err(error: E)
}
