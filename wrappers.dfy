/** The optional value used wherever the program holds `T | undefined` or returns `null`. */
module Wrappers {
  datatype Option<+T> = None | Some(value: T)
}
