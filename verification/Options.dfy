/** The usual optional value; the source writes `X | None`. */
module Options {
  datatype Option<+T> = None | Some(value: T)
}
