/** Optional values, used wherever the program returns a nil pointer or a "found" flag. */
module Wrappers {
  datatype Option<+T> = None | Some(value: T)
}
