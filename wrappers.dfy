/** The optional value used for "the input ran out before a value was accepted". */
module Wrappers {

  datatype Option<+T> = None | Some(value: T)
}
