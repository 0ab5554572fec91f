/** The optional value used wherever C has a nullable pointer or Lua a nil. */
module Wrappers {
  datatype Option<T> = None | Some(value: T)
}
