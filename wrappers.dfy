/** The optional-value datatype shared by every module of the model: Go's nil
    reference, absent map entry and nil error are all `None` here. */
module Wrappers {

  datatype Option<+T> = None | Some(value: T)
}
