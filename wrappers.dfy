/** The optional value used for nullable state cells and for a storage key that may be unset. */
module Wrappers {
  datatype Option<+T> = None | Some(value: T)
}
