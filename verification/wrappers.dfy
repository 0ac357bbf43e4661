/** An optional value: an output parameter that an operation may leave unwritten. */
module Wrappers {

  datatype Option<+T> = None | Some(value: T)
}
