/** The optional value used for "nothing selected" and "nothing emitted". */
module Wrappers {

  datatype Option<+T> = None | Some(value: T)
}
