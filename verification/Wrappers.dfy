/** Optional values: SQL's NULL and the source's nil values. */
module Wrappers {
  datatype Option<+T> = None | Some(value: T)
}
