/** The optional value used for request arguments and lookups. */
module Wrappers {

  datatype Option<+T> = None | Some(value: T)
}
