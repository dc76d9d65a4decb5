/** The optional-value datatype used wherever the source has a nil-able value. */
module Wrappers {

  /** `None` plays the part of Go's `nil`; `Some(v)` a present value. */
  datatype Option<+T> = None | Some(value: T)
}
