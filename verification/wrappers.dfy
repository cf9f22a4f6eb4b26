/** Optional values, for lookups that may find nothing. */
module Wrappers {

  /** A present value, or its absence. */
  datatype Option<+T> = None | Some(value: T)
}
