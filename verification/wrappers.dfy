/** Optional values: a file that could not be opened is `None`. */
module Wrappers {
  datatype Option<T> = None | Some(value: T)
}
