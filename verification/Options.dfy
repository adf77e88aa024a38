/** The optional value shared by the protocol modules. */
module Options {
  datatype Option<+T> = None | Some(value: T)
}
