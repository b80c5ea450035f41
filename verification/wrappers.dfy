/** The optional-value datatype used for payload fields that may be absent
    (a nil pointer in Go, a missing key in a Python dict). */
module Wrappers {

  datatype Option<+T> = None | Some(value: T)
}
