/** The optional-value wrapper used for parses that can fail. */
module Wrappers {

  /** A value that may be absent: the result of a parse that rejected its input. */
  datatype Option<+T> = None | Some(value: T)
}
