/** Option and Result, the two failure-carrying shapes the Go code expresses
    with `(value, error)` pairs and nil values. */
module Wrappers {

  datatype Option<+T> = None | Some(value: T)

  datatype Result<+R, +E> = Ok(value: R) | Err(error: E)
}
