/** Optional values: a storage key that may be missing, a meta field that may be absent. */
module Wrappers {

  datatype Option<+T> = None | Some(value: T)
}
