/** The optional value used wherever the relay may or may not have something. */
module Wrappers {

  datatype Option<+T> = None | Some(value: T)
}
