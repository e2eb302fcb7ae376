/** The optional value used throughout the model for Go's "value or nil". */
module Wrappers {

  datatype Option<+T> = None | Some(value: T)
}
