/** The optional value used for the panel's nullable and optional fields. */
module Options {
  datatype Option<T> = None | Some(value: T)
}
