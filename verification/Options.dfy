/** The optional value used where the source has "" or a nil pointer. */
module Options {
  datatype Option<+T> = None | Some(value: T)
}
