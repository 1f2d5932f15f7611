module Wrappers {
  /** What may be absent: a `null`, an `undefined`, a field that was not sent. */
  datatype Option<+T> = None | Some(value: T)
}
