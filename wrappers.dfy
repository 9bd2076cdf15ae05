/** The not-found sentinel of the lookup: a value or nothing. */
module Wrappers {
  datatype Option<+T> = None | Some(value: T)
}
