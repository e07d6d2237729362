/** Optional values: `null`/`undefined` in the modelled program. */
module Wrappers {
  datatype Option<+T> = None | Some(value: T)
}
