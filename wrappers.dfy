/** The optional-value datatype used where the script returns a value or `null`. */
module Wrappers {

  datatype Option<+T> = None | Some(value: T)
}
