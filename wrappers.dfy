/** The optional value used wherever the page may lack an element or a call may fail. */
module Wrappers {
  datatype Option<+T> = None | Some(value: T)
}
