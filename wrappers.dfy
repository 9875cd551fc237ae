/** A value that may be absent: an unset header, a route id that parses to NaN. */
module Wrappers {
  datatype Option<+T> = None | Some(value: T)
}
