/** The Option type used for "found or not found" results. */
module Wrappers {

  datatype Option<+T> = None | Some(value: T)
}
