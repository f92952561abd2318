/** The optional value used for nullable pointers and for decoders that can fail. */
module Wrappers {

  datatype Option<+T> = None | Some(value: T)
}
