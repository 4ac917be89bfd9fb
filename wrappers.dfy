/** The optional value used for null pointers and failed lookups. */
module Wrappers {
  datatype Option<+T> = None | Some(value: T)
}
