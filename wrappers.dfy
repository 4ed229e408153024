/** Optional values and results with an error side, used for the nullable
    values and the exceptions of the automation code. */
module Wrappers {

  datatype Option<+T> = None | Some(value: T)

  datatype Result<+T, +E> = Ok(value: T) | Err(error: E)
}
