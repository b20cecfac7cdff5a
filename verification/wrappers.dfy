/** The optional value used throughout the model for Python's "key absent" and
    "did not parse" cases. */
module Wrappers {

  datatype Option<+T> = None | Some(value: T)
}
