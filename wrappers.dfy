/** Optional values, for fields the source leaves null until set. */
module Wrappers {
  datatype Option<T> = None | Some(value: T)
}
