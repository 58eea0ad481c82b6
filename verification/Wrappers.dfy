/** Optional values, used for a request body that may fail to decode. */
module Wrappers {

  datatype Option<+T> = None | Some(value: T)
}
