/** The optional value used wherever the page has `T | null` or `T | undefined`. */
module Wrappers {

  datatype Option<T> = None | Some(value: T)
}
