/** Optional values: an attribute, a query parameter or a detector field that may be absent. */
module Wrappers {

  datatype Option<+T> = None | Some(value: T)
}
