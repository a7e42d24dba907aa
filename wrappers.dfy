/** Optional values, for the one place where the pages may or may not produce something. */
module Wrappers {

  datatype Option<+T> = None | Some(value: T)
}
