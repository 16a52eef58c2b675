/** The optional value used where the source holds a nullable reference to a value. */
module Wrappers {

  datatype Option<+T> = None | Some(value: T)
}
