/** A value that JavaScript may leave `undefined` (or `null`). */
module Wrappers {

  datatype Option<+T> = None | Some(value: T)

}
