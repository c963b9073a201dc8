/** The Go idiom "a value or nil" as a datatype. */
module Wrappers {

  datatype Option<+T> = None | Some(value: T)
}
