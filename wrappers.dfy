/** Optional values: a lateinit field not yet assigned, a parse that failed. */
module Wrappers {

  datatype Option<+T> = None | Some(value: T)
}
