/** The optional value used for lookups that can miss and for the error a handler may stop with. */
module Wrappers {

  datatype Option<+T> = None | Some(value: T)
}
