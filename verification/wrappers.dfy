/** The optional value used wherever the Python code returns `None` instead
    of a result. */
module Wrappers {

  datatype Option<+T> = None | Some(value: T)
}
