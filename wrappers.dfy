/** The optional value used for PHP's nullable parameters and fields. */
module Wrappers {

  datatype Option<+T> = None | Some(value: T)
}
