/** An optional value: a Go result that may be nil, such as an `error`. */
module Wrappers {

  datatype Option<T> = None | Some(value: T)
}
