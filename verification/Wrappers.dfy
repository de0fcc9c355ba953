/** An optional value. */
module Wrappers {
  datatype Maybe<T> = None | Some(value: T)
}
