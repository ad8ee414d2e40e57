/** The tagged "value or nothing" result shared by relay lookup and query parsing. */
module Wrappers {

  datatype Option<+T> = None | Some(value: T)
}
