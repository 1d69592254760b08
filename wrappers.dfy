/** The optional value used for "nothing parsed" and "nothing found". */
module Wrappers {

  datatype Option<+T> = None | Some(value: T)
}
