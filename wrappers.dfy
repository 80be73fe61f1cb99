/** The optional value used for lists that have not been fetched yet and for nullable fields. */
module Wrappers {

  datatype Option<+T> = None | Some(value: T)
}
