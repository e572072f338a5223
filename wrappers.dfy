/** Optional values: a Go pointer field that may be nil, or a reader that may fail. */
module Wrappers {
  datatype Option<+T> = None | Some(value: T)
}
