/** Option and Result, the two failure-compatible wrappers the library's results are built from. */
module Wrappers {

  datatype Option<+T> = None | Some(value: T)

  datatype Result<+R, +E> = Ok(value: R) | Err(error: E)
}
