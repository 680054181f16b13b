/** Optional values, for the fields of an order record that may be absent. */
module Wrappers {

  datatype Option<+T> = None | Some(value: T)
}
