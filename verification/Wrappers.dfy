/** The optional value used for the source's nullable pointers and -1 identifiers. */
module Wrappers {
  datatype Option<+T> = None | Some(value: T)
}
