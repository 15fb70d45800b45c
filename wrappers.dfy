/** The optional result of an iterator step. */
module Wrappers {

  datatype Option<+T> = None | Some(value: T)
}
