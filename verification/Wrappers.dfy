/** The optional value used for nullable columns and for queries that may find no row. */
module Wrappers {

  datatype Option<+T> = None | Some(value: T)
}
