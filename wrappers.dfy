/** Optional values (a JavaScript `undefined`) and the outcome of an
    operation that may throw. */
module Wrappers {

  datatype Option<+T> = None | Some(value: T)

  datatype Result<+T, +E> = Ok(value: T) | Err(error: E)
}
