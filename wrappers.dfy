/** The optional value used for pointer-typed fields of the parsed document. */
module Wrappers {
  datatype Option<+T> = None | Some(value: T)
}
