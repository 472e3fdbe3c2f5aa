/** Optional values: a JavaScript variable that may still be `undefined`. */
module Wrappers {
  datatype Option<+T> = None | Some(value: T)
}
