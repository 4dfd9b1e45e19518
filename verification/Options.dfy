/** The optional value the modules share: a C pointer that may be NULL, or a search that may fail. */
module Options {
  datatype Option<+T> = None | Some(value: T)
}
