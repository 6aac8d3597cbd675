/** The optional value used for lookups that may find nothing (a null pointer in the source). */
module Wrappers {
  datatype Option<+T> = None | Some(value: T)
}
