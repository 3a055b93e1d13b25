/** The optional value used for Python's `None`, missing dictionary keys and raised exceptions. */
module Wrappers {
  datatype Option<+T> = None | Some(value: T)
}
