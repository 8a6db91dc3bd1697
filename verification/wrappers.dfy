/** Optional values, used for results that an external collaborator may fail to produce. */
module Wrappers {
  datatype Option<+T> = None | Some(value: T)
}
