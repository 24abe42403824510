/** Small helper types shared by every module of the model. */
module Wrappers {

  /** A value that may be absent: the model's stand-in for `T | null` and `T | undefined`. */
  datatype Option<+T> = None | Some(value: T)
}
