/** Optional values: the model's stand-in for JavaScript's `null`. */
module Wrappers {

  /** `None` plays the part of `null` (or any falsy lookup result). */
  datatype Option<+T> = None | Some(value: T)
}
