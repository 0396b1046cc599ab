/** The optional value used where the source has `None` / `null`. */
module Wrappers {

  datatype Option<+T> = None | Some(value: T)
}
