/** The optional value that stands for Python's `None` in the instance records. */
module Wrappers {

  datatype Option<+T> = None | Some(value: T)
}
