/** The optional value used wherever the source has `None`. */
module Wrappers {

  datatype Option<T> = None | Some(value: T)
}
