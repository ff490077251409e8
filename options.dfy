/** The optional value used wherever the application reads a key that may be absent. */
module Options {
  datatype Option<+T> = None | Some(value: T)
}
