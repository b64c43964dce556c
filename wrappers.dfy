/** The optional value used for partial platform functions such as GUID parsing. */
module Wrappers {
  datatype Option<+T> = None | Some(value: T)
}
