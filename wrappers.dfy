/** Optional values: a nullable reference or a `T?` value of the source. */
module Wrappers {
  datatype Option<+T> = None | Some(value: T)
}
