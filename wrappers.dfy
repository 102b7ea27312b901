/** Option and Result, used for JavaScript's `undefined` and for rejected promises or thrown errors. */
module Wrappers {

  datatype Option<+T> = None | Some(value: T)

  datatype Result<+T, +E> = Ok(value: T) | Err(error: E)
}
