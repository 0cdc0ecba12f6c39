/** The optional value used across the model (Go's `nil` / "not found" results). */
module Wrappers {

  datatype Option<+T> = None | Some(value: T)
}
