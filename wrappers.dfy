/** Small shared datatypes. */
module Wrappers {

  /** A value that may be absent (a storage key never written, a key with no closer). */
  datatype Option<+T> = None | Some(value: T)
}
