/** Optional values and error-carrying results, used where the source has
    `null`/`undefined` or an error return. */
module Wrappers {

  datatype Option<+T> = None | Some(value: T)

  datatype Result<+T> = Ok(value: T) | Err(error: string)
}
