/** The optional value used for the results of parsers that may fail. */
module Wrappers {

  datatype Option<+T> = None | Some(value: T)
}
