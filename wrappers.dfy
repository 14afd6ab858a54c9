/** Small value wrappers shared by the modules of this project. */
module Wrappers {

  /** A value that may be missing: an empty JavaScript object, an absent store key. */
  datatype Option<+T> = None | Some(value: T)
}
