/** The usual Some/None datatype, used where the source has a null pointer or an
    optional value. */
module Wrappers {

  datatype Option<+T> = None | Some(value: T)
}
