/** An optional value: what a pattern that may fail to match returns. */
module Wrappers {

  datatype Option<+T> = None | Some(value: T)

}
