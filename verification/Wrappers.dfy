// The optional value every model in this project uses for a null pointer,
// a blocked step or a rejected input.
module Wrappers {
  datatype Option<+T> = None | Some(value: T)
}
