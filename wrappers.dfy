/** The optional-value datatype shared by the other modules. */
module Wrappers {

  /** A value that may be absent: JavaScript's NaN, `undefined` or a failed parse. */
  datatype Option<+T> = None | Some(value: T)
}
