/** Python's `None`-or-value, as used for the optional fields of the session. */
module Wrappers {
  datatype Option<+T> = None | Some(value: T)
}
