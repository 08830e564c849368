/** The optional value used for Android's nullable results. */
module Wrappers {
  datatype Option<+T> = None | Some(value: T)
}
