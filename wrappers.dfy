/** The optional-value datatype shared by the decoder and the dispatcher. */
module Wrappers {

  datatype Option<+T> = None | Some(value: T)
}
