/** The outcome of a lookup or a parse that may fail. */
module Wrappers {
  datatype Option<+T> = None | Some(value: T)
}
