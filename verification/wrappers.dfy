/** The usual optional-value datatype, used for the outcome of parsing the probe's output. */
module Wrappers {
  datatype Option<+T> = None | Some(value: T)
}
