/** Optional values: a reference slot that is either empty (`null` in the component) or holds a value. */
module Wrappers {

  datatype Option<+T> = None | Some(value: T)
}
