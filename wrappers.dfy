/** Optional values: a JavaScript value that may be null/undefined, or an
    external call that may throw (None). */
module Wrappers {
  datatype Option<+T> = None | Some(value: T)
}
