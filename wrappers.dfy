/** The conventional optional value, used for storage lookups and optional fields. */
module Wrappers {

  datatype Option<+T> = None | Some(value: T)
}
