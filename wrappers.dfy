/** The optional value a query returns: `None` when no row matched. */
module Wrappers {
  datatype Option<+T> = None | Some(value: T)
}
