/** Optional values, for settings a caller may leave out. */
module Wrappers {

  datatype Option<T> = None | Some(value: T)
}
