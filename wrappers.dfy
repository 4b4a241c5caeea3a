/** The optional value used throughout the model (Python's `X | None`). */
module Wrappers {
  datatype Option<+T> = None | Some(value: T)
}
