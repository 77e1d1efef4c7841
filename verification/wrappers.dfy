/** Optional values: a storage key that is present or absent. */
module Wrappers {

  datatype Option<+T> = None | Some(value: T)
}
