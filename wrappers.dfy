/** The optional value used for nullable references and partial decoders. */
module Wrappers {

  datatype Option<+T> = None | Some(value: T)
}
