/** The optional-value datatype used for JavaScript properties and arguments that may be absent. */
module Wrappers {

  /** `None` stands for an absent (undefined or null) object reference. */
  datatype Option<+T> = None | Some(value: T)
}
