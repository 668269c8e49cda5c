/** Optional values, for lookups that may find nothing and for the fields that
    the source leaves `null` or `undefined`. */
module Wrappers {
  datatype Option<T> = None | Some(value: T)
}
