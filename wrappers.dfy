/** The optional value the engine expresses with `null`. */
module Wrappers {
  datatype Option<+T> = None | Some(value: T)
}
