/** The optional value the Python code writes as `None` or as a value. */
module Wrappers {

  datatype Option<+T> = None | Some(value: T)
}
