/** The optional value used wherever the source uses `None`. */
module Wrappers {
  datatype Option<T> = None | Some(value: T)
}
