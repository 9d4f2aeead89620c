/** Optional values: stands in for Java's `null` and for a conversion that throws. */
module Wrappers {
  datatype Option<+T> = None | Some(value: T)
}
