module Options {
  /** A value or none: Python's `X | None`. */
  datatype Option<+T> = None | Some(value: T)
}
