/** A possibly missing value. */
module Wrappers {
  datatype Option<+T> = None | Some(value: T)
}
