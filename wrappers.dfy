/** The optional value used for the storage snapshot: `localStorage.getItem` yields null when the key is absent. */
module Wrappers {
  datatype Option<+T> = None | Some(value: T)
}
