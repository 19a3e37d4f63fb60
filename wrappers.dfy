/** Optional values, for the nullable slots of the components' state. */
module Wrappers {

  datatype Option<+T> = None | Some(value: T)
}
