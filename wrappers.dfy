/** Optional values, used for absent request fields and lookups that may miss. */
module Wrappers {
  datatype Option<+T> = None | Some(value: T)
}
