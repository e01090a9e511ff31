/** The optional value used for fields that may be absent, such as a to-do item's id. */
module Wrappers {

  datatype Option<+T> = None | Some(value: T)
}
