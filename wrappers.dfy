/** A value that may be absent: a null reply, an unset variable. */
module Wrappers {

  datatype Option<+T> = None | Some(value: T)
}
