/** The optional value used where the component holds `null` or nothing. */
module Wrappers {

  datatype Option<+T> = None | Some(value: T)
}
