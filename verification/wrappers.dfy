/** Optional values, used for "first match" searches that may find nothing. */
module Wrappers {

  datatype Option<+T> = None | Some(value: T)
}
