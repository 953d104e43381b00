// A value that may be absent (Swift's optional).
module Wrappers {
  datatype Option<T> = None | Some(value: T)
}
