// Small shared types.
module Wrappers {

  /** A value that may be absent. */
  datatype Option<+T> = None | Some(value: T)

  /** An identifier or key, compared only for equality. */
  datatype Name = Name(text: string)
}
