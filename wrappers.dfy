/** The optional value used for "not found" results and for an absent storage key. */
module Wrappers {

  datatype Option<+T> = None | Some(value: T)
}
