/** A value, or a failure standing for a call that raised. `None` stands for
    an exception propagating out of the call; the model does not distinguish
    exception types. */
module Wrappers {

  datatype Option<+T> = None | Some(value: T)
}
