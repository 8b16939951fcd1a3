/** The Option datatype: a value that pandas would leave missing (NaN) is None. */
module Wrappers {

  datatype Option<+T> = None | Some(value: T)
}
