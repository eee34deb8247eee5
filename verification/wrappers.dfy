/** The optional-value datatype the rest of the model uses for "may fail". */
module Wrappers {

  datatype Option<+T> = None | Some(value: T)
}
