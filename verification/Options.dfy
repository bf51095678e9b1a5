/** A value that may be absent, such as a NULL holder. */
module Options {
  datatype Option<T> = None | Some(value: T)
}
