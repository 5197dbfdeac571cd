/** Optional values (Python's `None`) and results that may carry the error a
    raised exception would. */
module Wrappers {

  datatype Option<T> = None | Some(value: T)

  datatype Result<T, E> = Ok(value: T) | Err(error: E)
}
