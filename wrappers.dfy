/** Optional values and results, standing in for JavaScript's `undefined`/`null` and for
    promises that either resolve with a value or reject with an error. */
module Wrappers {

  datatype Option<+T> = None | Some(value: T)

  datatype Result<+T, +E> = Ok(value: T) | Err(error: E)
}
