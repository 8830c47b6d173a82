/** Optional values: the result of a capability that may have nothing to give. */
module Wrappers {

  datatype Option<+T> = None | Some(value: T)

}
