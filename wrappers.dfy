/** Optional values, for C null pointers, Python `None` and exceptions. */
module Wrappers {
  datatype Option<T> = None | Some(value: T)
}
