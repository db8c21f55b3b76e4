/** The usual Some/None datatype, used for JavaScript's null, for a regex that
    did not match and for an optional timer or overlay. */
module Wrappers {

  datatype Option<+T> = None | Some(value: T)
}
