/** Go's `error` results: `None` is `nil`. `Result` pairs a value with the error path. */
module Wrappers {

  datatype Option<+T> = None | Some(value: T)

  datatype Result<+R, +E> = Ok(value: R) | Err(error: E)
}
