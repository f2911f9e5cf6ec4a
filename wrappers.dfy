/** Optional values, used for the contents of a single-slot channel. */
module Wrappers {

  datatype Option<T> = None | Some(value: T)
}
