/** A minimal optional-value datatype used for lookups that can fall off a table. */
module Wrappers {

  datatype Option<T> = None | Some(value: T)
}
