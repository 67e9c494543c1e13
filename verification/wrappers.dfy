/** Optional values: an argument that JavaScript may pass as `undefined` or `null`. */
module Wrappers {
  datatype Option<T> = None | Some(value: T)
}
