/** The optional value used for the nullable fields of the module's records. */
module Wrappers {
  datatype Option<+T> = None | Some(value: T)
}
