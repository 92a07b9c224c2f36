/** The usual optional-value datatype, used for "not found" results. */
module Wrappers {
  datatype Option<+T> = None | Some(value: T)
}
