/** Optional values and results with an error, as the JavaScript source uses
    `undefined` for absent fields and exceptions for failures. */
module Wrappers {

  datatype Option<+T> = None | Some(value: T)

  datatype Result<+T, +E> = Ok(value: T) | Err(error: E)
}
