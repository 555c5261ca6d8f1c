/** Optional values, used where the source has `undefined` for "no such thing". */
module Wrappers {
  datatype Option<+T> = None | Some(value: T)
}
