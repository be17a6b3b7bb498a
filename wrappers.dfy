/** Option, for values JavaScript represents as `null`/`undefined` or a missing element. */
module Wrappers {

  datatype Option<+T> = None | Some(value: T)
}
