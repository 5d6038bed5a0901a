/** The optional value used where the source falls back to a sentinel. */
module Wrappers {

  datatype Option<+T> = None | Some(value: T)
}
