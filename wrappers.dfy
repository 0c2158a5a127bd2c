/** The optional-value type used wherever the source has `undefined`, `null` or an optional field. */
module Wrappers {
  datatype Option<+T> = None | Some(value: T)
}
