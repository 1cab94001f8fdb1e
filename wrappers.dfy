/** Optional values, used for every lookup that can come back empty. */
module Wrappers {

  datatype Option<+T> = None | Some(value: T)
}
