/** Optional values: a Java reference that may be null, or an operation that may throw. */
module Wrappers {

  datatype Option<+T> = None | Some(value: T)
}
