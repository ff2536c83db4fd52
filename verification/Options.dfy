/** The one wrapper type shared by every module: a value that may be absent. */
module Options {
  datatype Option<+T> = None | Some(value: T)
}
