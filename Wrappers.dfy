/** The optional value the store uses for "no property selected" (`null` in the source). */
module Wrappers {
  datatype Option<+T> = None | Some(value: T)
}
