/** A nullable value, as Python's `None`-or-value variables are used here. */
module Wrappers {

  datatype Option<+T> = None | Some(value: T)
}
