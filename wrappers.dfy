/** The optional values that stand for Swift's `String?` parameters. */
module Wrappers {

  datatype Option<+T> = None | Some(value: T)
}
