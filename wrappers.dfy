/** The Option type used wherever the source returns `null` or may throw. */
module Wrappers {

  datatype Option<+T> = None | Some(value: T)
}
