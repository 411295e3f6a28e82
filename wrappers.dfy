/** Go's nil-or-value results: `None` stands for a nil error or a nil map. */
module Wrappers {
  datatype Option<+T> = None | Some(value: T)
}
