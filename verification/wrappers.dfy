/** The optional value used for "this layer is skipped". */
module Wrappers {
  datatype Option<+T> = None | Some(value: T)
}
