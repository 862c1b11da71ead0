/** The optional value used wherever the source stores `null` or an absent result. */
module Wrappers {
  datatype Option<+T> = None | Some(value: T)
}
