/** The optional value used for environment lookups, parsed versions and the stream's `isTTY` flag. */
module Wrappers {

  datatype Option<+T> = None | Some(value: T)
}
