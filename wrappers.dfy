/** Swift's optionals, as a value that is either absent or present. */
module Wrappers {

  datatype Option<+T> = None | Some(value: T)
}
