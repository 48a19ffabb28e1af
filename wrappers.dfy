/** The Option datatype used for "maybe a diagnostic". */
module Wrappers {
  datatype Option<+T> = None | Some(value: T)
}
