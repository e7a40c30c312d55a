/** The optional value used for parse results and for the fuel command a tick may emit. */
module Wrappers {
  datatype Option<+T> = None | Some(value: T)
}
