/** The optional value used for form fields that may be absent. */
module Wrappers {

  datatype Option<+T> = None | Some(value: T)
}
