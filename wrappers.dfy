/** Optional values, used for JavaScript's `null`/`undefined` and for "no reply". */
module Wrappers {
  datatype Option<+T> = None | Some(value: T)
}
