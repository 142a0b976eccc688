/** Optional values, for the source's nullable results and "not found" lookups. */
module Wrappers {

  datatype Option<+T> = None | Some(value: T)
}
