/** The Option type used for "a message, or nothing". */
module Wrappers {

  datatype Option<+T> = None | Some(value: T)
}
