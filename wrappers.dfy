/** Optional values, standing in for C's nullable pointers and "no result". */
module Wrappers {
  datatype Option<+T> = None | Some(value: T)
}
