/** The absent-or-present value used wherever the script works with `null`. */
module Wrappers {

  datatype Option<+T> = None | Some(value: T)
}
