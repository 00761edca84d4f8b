/** An optional value, for the source's NULL and error returns. */
module Options {
  datatype Option<+T> = None | Some(value: T)
}
