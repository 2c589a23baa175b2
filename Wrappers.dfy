/** The optional-value wrapper used throughout the model. */
module Wrappers {

  /** Some value, or nothing (a failed match, a failed parse). */
  datatype Option<+T> = None | Some(value: T)
}
