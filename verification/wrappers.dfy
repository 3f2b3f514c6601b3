/** Small failure-carrying datatypes shared by the widget model. */
module Wrappers {

  /** An optional value: Swift's `T?`. */
  datatype Option<+T> = None | Some(value: T)

  /** The outcome of Swift code that may stop the process: it either returns a
      value or hits a runtime trap (`try!` on a thrown error, `!` on `nil`). */
  datatype Run<+T> = Returns(value: T) | Traps
}
