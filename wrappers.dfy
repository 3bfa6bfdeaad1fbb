/** The optional value used for "the session handler holds nothing". */
module Wrappers {

  datatype Option<+T> = None | Some(value: T)
}
