/** A value that may be absent, for lookups and error returns. */
module Wrappers {

  datatype Option<+T> = None | Some(value: T)

}
