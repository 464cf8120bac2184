/** The usual optional value: a C pointer that may be NULL, a slot that may be empty. */
module Options {
  datatype Option<+T> = None | Some(value: T)
}
