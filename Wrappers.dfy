/** Optional values, used for absent context entries, absent providers and diagnostics. */
module Wrappers {

  datatype Option<+T> = None | Some(value: T)
}
