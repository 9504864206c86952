/** A value that may be missing, as the source's `undefined` and `null`. */
module Options {
  datatype Option<+T> = None | Some(value: T)
}
