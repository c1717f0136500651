/** Optional values: a preference that may be absent, a post that may have no predecessor. */
module Wrappers {
  datatype Option<+T> = None | Some(value: T)
}
