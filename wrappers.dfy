/** The Some/None datatype that stands for Python's `None` return values. */
module Wrappers {

  datatype Option<+T> = None | Some(value: T)
}
