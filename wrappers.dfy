/** Optional values: a configuration entry that may be unset, a remote read that may fail. */
module Wrappers {

  datatype Option<+T> = None | Some(value: T)
}
