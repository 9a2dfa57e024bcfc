/** Optional values: a missing key, a missing tool argument, an absent audio payload. */
module Wrappers {
  datatype Option<+T> = None | Some(value: T)
}
