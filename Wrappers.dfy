/** Optional values: what `localStorage.getItem` returns (a string or `null`). */
module Wrappers {

  datatype Option<T> = None | Some(value: T)
}
