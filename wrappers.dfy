/** The optional value used for a lookup that may fail. */
module Wrappers {

  datatype Option<+T> = None | Some(value: T)
}
