/** Option and Result, the two failure-carrying shapes the model uses in place of
    JavaScript's `undefined` and of a call to `errorOut`. */
module Wrappers {

  datatype Option<+T> = None | Some(value: T)

  datatype Result<+T, +E> = Ok(value: T) | Err(error: E)
}
