/** Optional values, used for absent storage entries, failed reconstructions
    and metrics that have no finite value. */
module Wrappers {

  datatype Option<+T> = None | Some(value: T)
}
