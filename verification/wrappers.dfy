/** The optional value used for the four slots of a record set and for lookups
    that may find nothing. */
module Wrappers {

  datatype Option<+T> = None | Some(value: T)
}
