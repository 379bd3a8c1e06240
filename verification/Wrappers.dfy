module Wrappers {
  /** A pointer that may be null, or a result that may be absent. */
  datatype Option<+A> = None | Some(value: A)
}
