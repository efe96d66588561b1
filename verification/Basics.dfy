/** The one wrapper type shared by every module. */
module Basics {
  datatype Option<+T> = None | Some(value: T)
}
