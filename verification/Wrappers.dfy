/** Values that may be absent, as the source's `X | None`. */
module Wrappers {
  datatype Option<+T> = None | Some(value: T)
}
