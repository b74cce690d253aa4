/** The optional result a fallible operation returns. */
module Wrappers {

  datatype Option<+T> = None | Some(value: T)
}
