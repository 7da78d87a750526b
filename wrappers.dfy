/** An optional value: here, the contents of a file that may not exist. */
module Wrappers {
  datatype Option<+T> = None | Some(value: T)
}
