/** The optional value used for a lookup that may find nothing (JavaScript's `undefined`). */
module Wrappers {
  datatype Option<+T> = None | Some(value: T)
}
