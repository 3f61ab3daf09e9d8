/** The optional value used for a parse that can fail and a name that can be null. */
module Wrappers {
  datatype Option<+T> = None | Some(value: T)
}
