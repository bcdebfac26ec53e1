/** Optional values, for the source's `None` defaults. */
module Wrappers {

  datatype Option<+T> = None | Some(value: T)
}
