module Options {
  /** A value that may be absent: a pointer that may be null, a result that may be missing. */
  datatype Option<+T> = None | Some(value: T)
}
