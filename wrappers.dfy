/** The value-or-nothing type the model uses for the source's nullable fields. */
module Wrappers {

  datatype Option<+T> = None | Some(value: T)
}
