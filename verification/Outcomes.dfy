/** Optional values and results: what the Go code returns as `(x, ok)` and `(x, err)`. */
module Outcomes {

  datatype Option<+T> = None | Some(value: T)

  datatype Result<+T, +E> = Ok(value: T) | Err(error: E)
}
