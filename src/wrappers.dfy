/** The optional value used for sensor readings that may have no state. */
module Wrappers {
  datatype Option<+T> = None | Some(value: T)
}
