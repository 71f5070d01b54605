/** The optional value used for namespace prefixes and for partial readers. */
module Wrappers {

  datatype Option<+T> = None | Some(value: T)
}
