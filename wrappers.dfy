/** The optional-value wrapper used for the table's optional columns. */
module Wrappers {

  datatype Option<+T> = None | Some(value: T)
}
