/** A value that may be absent: the dashboard's "no loan selected" is `None`. */
module Wrappers {

  datatype Option<+T> = None | Some(value: T)
}
