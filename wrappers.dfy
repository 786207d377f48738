/** An optional value: the Go code's nil results and comma-ok lookups. */
module Wrappers {
  datatype Option<+T> = None | Some(value: T)
}
