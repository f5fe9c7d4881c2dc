/** The optional value returned by the table lookups of the model. */
module Wrappers {

  datatype Option<+T> = None | Some(value: T)
}
