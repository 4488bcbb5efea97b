/** Optional values, used for fetches that can fail and parses that can be rejected. */
module Wrappers {

  datatype Option<+T> = None | Some(value: T)

}
