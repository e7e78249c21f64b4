/** An optional value: a landmark slot that may be empty, a visibility that may be
    missing, a measurement that may fail. */
module Wrappers {
  datatype Option<+T> = None | Some(value: T)
}
