/** Optional values: a missing file, a missing last error. */
module Wrappers {

  datatype Option<+T> = None | Some(value: T)
}
