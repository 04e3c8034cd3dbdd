/** The optional value used for the `weather` state, which starts out as `null`. */
module Wrappers {
  datatype Option<+T> = None | Some(value: T)
}
