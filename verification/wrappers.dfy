/** The optional-value datatype used by the decoders of this model. */
module Wrappers {

  /** Either a decoded value or the absence of one. */
  datatype Option<+T> = None | Some(value: T)
}
