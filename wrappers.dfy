/** Optional values: a field of a request payload that is either set or absent. */
module Wrappers {

  datatype Option<+T> = None | Some(value: T)
}
