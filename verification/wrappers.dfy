/** The optional value the controller's helpers return in place of `null`. */
module Wrappers {

  datatype Option<+T> = None | Some(value: T)
}
