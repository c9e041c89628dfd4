/** The optional value the source's `Option` and nullable columns stand for. */
module Options {
  datatype Option<+T> = None | Some(value: T)
}
