/** The optional value used for the nullable refs and lookups of the component. */
module Wrappers {

  datatype Option<+T> = None | Some(value: T)
}
