/** Option, used for a parsed numeric input: `None` is the NaN that `parseInt` yields for a blank field. */
module Wrappers {

  datatype Option<+T> = None | Some(value: T)
}
