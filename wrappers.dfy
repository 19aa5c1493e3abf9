// Option, for values a C++ pointer or sentinel may leave absent.

module Wrappers {
  datatype Option<T> = None | Some(value: T)
}
