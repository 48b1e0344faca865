/** The optional value used wherever the front end stores `null`/`undefined` or a missing prop. */
module Wrappers {

  datatype Option<+T> = None | Some(value: T)
}
