/** The optional value used for `partner` (Python's `None` or an agent) and for the sample index. */
module Wrappers {
  datatype Option<+T> = None | Some(value: T)
}
