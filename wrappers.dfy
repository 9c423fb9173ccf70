/** The optional-value datatype shared by the other modules. */
module Wrappers {

  /** Either no value or exactly one. */
  datatype Option<+T> = None | Some(value: T)
}
