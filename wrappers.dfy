/** The optional result that every path query returns: absent only when there is no data. */
module Wrappers {

  datatype Option<+T> = None | Some(value: T)
}
