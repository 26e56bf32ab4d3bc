/** The optional-value datatype shared by the other modules. */
module Wrappers {

  /** A value that may be absent, as PHP's `null` or a missing array key. */
  datatype Option<+T> = None | Some(value: T)
}
