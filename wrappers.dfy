/** Swift optionals. */
module Wrappers {
  datatype Option<T> = None | Some(value: T)
}
