/** The optional value used for JSON bodies that may be `null`. */
module Wrappers {

  datatype Option<+T> = None | Some(value: T)
}
