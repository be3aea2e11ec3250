/** The optional value used for "an exception may have been raised". */
module Wrappers {
  datatype Option<+T> = None | Some(value: T)
}
