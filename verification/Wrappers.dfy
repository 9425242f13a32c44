/** The one container datatype every module shares. */
module Wrappers {
  datatype Option<+T> = None | Some(value: T)
}
