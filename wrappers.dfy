/** The optional value used for nullable columns and optional parameters. */
module Wrappers {

  datatype Option<+T> = None | Some(value: T)
}
