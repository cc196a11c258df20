/** Optional values, used for query results that may find nothing. */
module Wrappers {
  datatype Option<+T> = None | Some(value: T)
}
