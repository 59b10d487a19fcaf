/** The optional-value datatype used for a transition that the table rejects. */
module Wrappers {

  datatype Option<+T> = None | Some(value: T)

}
