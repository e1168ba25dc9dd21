/** Optional values: a shared pointer that may be null, a TOptional that may be unset. */
module Wrappers {
  datatype Option<+T> = None | Some(value: T)
}
