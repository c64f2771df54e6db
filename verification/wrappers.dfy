/** The optional value used for the optional fields of a tool call's arguments. */
module Wrappers {

  datatype Option<+T> = None | Some(value: T)
}
