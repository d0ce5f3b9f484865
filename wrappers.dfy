/** The Option datatype used for every value that may be null in the source. */
module Wrappers {

  datatype Option<+T> = None | Some(value: T)
}
