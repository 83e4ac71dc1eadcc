/** Optional values (a JavaScript `null` or `undefined` is `None`) and results
    (a returned value or the message of a thrown `Error`). */
module Wrappers {

  datatype Option<+T> = None | Some(value: T)

  datatype Result<+T, +E> = Ok(value: T) | Err(error: E)
}
