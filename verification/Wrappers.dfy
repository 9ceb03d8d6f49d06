/** Results that may be absent: SQL NULL, a lookup without a match, a call that failed. */
module Wrappers {
  datatype Option<+T> = None | Some(value: T)
}
