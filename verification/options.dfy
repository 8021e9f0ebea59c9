/** Python's None, made a value of the type. */
module Options {
  datatype Option<+T> = None | Some(value: T)
}
