/** Optional values: a header lookup either finds a value or finds nothing. */
module Wrappers {
  datatype Option<+T> = None | Some(value: T)
}
