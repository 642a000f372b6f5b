/** The optional value used for "no winner" and for trials outside the model. */
module Wrappers {
  datatype Option<+T> = None | Some(value: T)
}
