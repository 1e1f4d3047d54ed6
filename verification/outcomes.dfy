/** Optional values and success-or-error results, used where the source returns
    `null` or throws. */
module Outcomes {

  datatype Option<+T> = None | Some(value: T)

  datatype Result<+T, +E> = Ok(value: T) | Err(error: E)
}
