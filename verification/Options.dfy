/** The optional values of the relay's nullable columns and optional arguments. */
module Options {

  datatype Option<+T> = None | Some(value: T)
}
