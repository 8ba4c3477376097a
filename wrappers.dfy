/** Optional values and error-or-value results, used wherever the program
    either raises or hands back `undefined`. */
module Wrappers {

  datatype Option<+T> = None | Some(value: T)

  datatype Result<+T, +E> = Ok(value: T) | Err(error: E)
}
