/** Optional values, standing for Go's nil-able pointers and error values. */
module Wrappers {
  datatype Option<+T> = None | Some(value: T)
}
