/// An optional value: a Go reference or interface that may be nil.
module Wrappers {
  datatype Option<T> = None | Some(value: T)
}
