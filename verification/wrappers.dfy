/** The optional-value type used by the index lookups. */
module Wrappers {
  datatype Option<+T> = None | Some(value: T)
}
