/** Optional values: a field that may be missing, a number that may fail to parse. */
module Wrappers {

  datatype Option<+T> = None | Some(value: T)
}
