/** The one helper datatype that every component shares. */
module Wrappers {
  datatype Option<+T> = None | Some(value: T)
}
