/** The optional-value datatype the rest of the model uses for results that may be absent. */
module Wrappers {

  datatype Option<+T> = None | Some(value: T)
}
