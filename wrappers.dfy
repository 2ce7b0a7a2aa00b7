/** The optional value used for the desktop pad's "no number selected" state. */
module Wrappers {
  datatype Option<+T> = None | Some(value: T)
}
