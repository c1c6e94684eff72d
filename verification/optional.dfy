/** The absent-or-present value that stands in for Java's `null` returns. */
module Optional {

  datatype Option<+T> = None | Some(value: T)
}
