/** The optional value used wherever the source has `null` or a missing field. */
module Options {

  datatype Option<+T> = None | Some(value: T)
}
