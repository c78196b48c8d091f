/** Optional values and results with an error, used for the loop's unset
    best loss and for the error paths of evaluation. */
module Wrappers {

  datatype Option<+T> = None | Some(value: T)

  datatype Result<+T, +E> = Ok(value: T) | Err(error: E)
}
