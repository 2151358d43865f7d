/** The absent-or-present value the rental model returns where Python returns `None`. */
module Wrappers {
  datatype Option<+T> = None | Some(value: T)
}
