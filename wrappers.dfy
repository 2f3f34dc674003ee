/** The optional value of the Python code: `None` or a present value. */
module Wrappers {
  datatype Option<+T> = None | Some(value: T)
}
