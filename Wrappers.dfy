/** The optional value used for nullable pointers and optional C strings. */
module Wrappers {

  datatype Option<+T> = None | Some(value: T)
}
