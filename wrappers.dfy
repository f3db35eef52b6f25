/** Optional values and fallible results, as the channel's API uses them. */
module Wrappers {

  /** `Option` in the source: an unset configuration field is `None`. */
  datatype Option<+T> = None | Some(value: T)

  /** The `Result` the async operations of the channel resolve to. */
  datatype Result<+T, +E> = Ok(value: T) | Err(error: E)
}
