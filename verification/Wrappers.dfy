/** The usual optional value, used wherever the program stores an attribute
    that may be absent. */
module Wrappers {
  datatype Option<+T> = None | Some(value: T)
}
