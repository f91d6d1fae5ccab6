/** The optional value used for the controller's selection and move set. */
module Wrappers {
  datatype Option<+T> = None | Some(value: T)
}
