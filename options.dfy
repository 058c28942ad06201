/** Python's `None` alongside a value. */
module Options {

  datatype Option<+T> = None | Some(value: T)
}
