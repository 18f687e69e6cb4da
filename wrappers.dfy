/** The Option datatype used for the optional keys of a partial configuration
    and for lookups that may find nothing. */
module Wrappers {

  datatype Option<+T> = None | Some(value: T)
}
