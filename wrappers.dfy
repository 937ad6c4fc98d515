/** The optional value used for nullable fields and for outcomes that may fail. */
module Wrappers {

  datatype Option<+T> = None | Some(value: T)
}
