/** The optional value used wherever the JavaScript source reads a field that may be absent. */
module Wrappers {

  datatype Option<+T> = None | Some(value: T)
}
