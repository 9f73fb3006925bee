/** The optional value used throughout the model: JavaScript's `undefined`
    result of an optional chain, a missing token, a request that was not sent. */
module Wrappers {
  datatype Option<+T> = None | Some(value: T)
}
