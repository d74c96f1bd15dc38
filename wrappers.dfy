/** A value that may be absent: Kotlin's nullable types (`String?`, `File?`, `Double?`). */
module Wrappers {
  datatype Option<+T> = None | Some(value: T)
}
