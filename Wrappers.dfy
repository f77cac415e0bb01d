/** The optional value used where the code either does something or returns early. */
module Wrappers {

  datatype Option<+T> = None | Some(value: T)

}
