/** The value-or-nil wrapper the rest of the model uses for Ruby's nil. */
module Wrappers {

  /** `None` stands for nil, `Some(v)` for a value that is set. */
  datatype Option<+T> = None | Some(value: T)
}
