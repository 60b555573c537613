/** Optional values and error-or-value results, used where the script either
    has no value (`None` in Python) or stops with an error. */
module Wrappers {

  /** A value that may be absent. */
  datatype Option<+T> = None | Some(value: T)

  /** Either a computed value or the reason the computation was refused. */
  datatype Result<+T, +E> = Ok(value: T) | Err(error: E)
}
