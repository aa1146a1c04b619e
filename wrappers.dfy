/** The optional value, used wherever a property may be `undefined`. */
module Wrappers {
  datatype Option<+T> = None | Some(value: T)
}
