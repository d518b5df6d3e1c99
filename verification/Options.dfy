/** The optional value used throughout. */
module Options {

  datatype Option<+T> = None | Some(value: T)
}
