/** The optional value used for a probe that may time out. */
module Wrappers {

  datatype Option<+T> = None | Some(value: T)
}
