/** The optional value used for the outcome of one upload request. */
module Wrappers {
  datatype Option<+T> = None | Some(value: T)
}
