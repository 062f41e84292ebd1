/** The optional value returned by the operations that may find nothing. */
module Wrappers {
  datatype Option<+T> = None | Some(value: T)
}
