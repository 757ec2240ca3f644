/** The optional value used where the source returns None or a falsy value. */
module Wrappers {
  datatype Option<+T> = None | Some(value: T)
}
