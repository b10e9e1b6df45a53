/** The optional value used for attributes that may be nil. */
module Wrappers {

  datatype Option<+T> = None | Some(value: T)
}
