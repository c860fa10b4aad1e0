/** The optional value the store's lookups return where the source returns `undefined`. */
module Wrappers {
  datatype Option<+T> = None | Some(value: T)
}
