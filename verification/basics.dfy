/** Small value wrappers shared by the command models. */
module Basics {

  /** A value that may be absent (an optional flag, a callback argument left `undefined`). */
  datatype Option<+T> = None | Some(value: T)
}
