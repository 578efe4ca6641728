/** A value that may be missing: a SQL NULL, a query without rows, a key that is not there. */
module Options {
  datatype Option<+T> = None | Some(value: T)
}
