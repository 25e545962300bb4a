/** An optional value: a lookup without a result, a statement that fails. */
module Wrappers {
  datatype Option<+T> = None | Some(value: T)
}
