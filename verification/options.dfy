/** The optional value used wherever the source has `None` or a value that may be missing. */
module Options {

  datatype Option<+T> = None | Some(value: T)
}
