/** The optional value every other module uses for Go's nil pointers, missing map keys and panics. */
module Wrappers {
  datatype Option<+T> = None | Some(value: T)
}
