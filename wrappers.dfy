/** The optional-value type used wherever the firmware returns a null pointer,
    a "not found" sentinel or a missing JSON element. */
module Wrappers {

  datatype Option<+T> = None | Some(value: T)
}
