/** Optional values and results with an error, shared by the other modules. */
module Wrappers {

  /** A Python `Optional[...]` field: `None` or a present value. */
  datatype Option<+T> = None | Some(value: T)

  /** A computation that either produces a value or raises an error. */
  datatype Result<+T, +E> = Ok(value: T) | Err(error: E)
}
