/** The optional value used wherever the PHP source returns `false` or holds `null`. */
module Wrappers {
  datatype Option<+T> = None | Some(value: T)
}
