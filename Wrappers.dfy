/** Stock Option datatype, used for the optional engine provenance fields. */
module Wrappers {
  datatype Option<+T> = None | Some(value: T)
}
