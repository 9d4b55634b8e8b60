/** The absent-or-present values the source writes as None or a plain value. */
module Options {
  datatype Option<+T> = None | Some(value: T)
}
