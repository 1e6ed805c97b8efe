/** The optional value used wherever the handler yields `undefined` or a value. */
module Wrappers {

  datatype Option<+T> = None | Some(value: T)
}
