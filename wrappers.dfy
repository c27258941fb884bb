/** Optional values, used where the source returns `None` or looks up a key that may be absent. */
module Wrappers {
  datatype Option<+T> = None | Some(value: T)
}
