/** A nullable value, for the places where the source returns or stores `null`/`undefined`. */
module Wrappers {
  datatype Option<+T> = None | Some(value: T)
}
