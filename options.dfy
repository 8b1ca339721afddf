/** Python's `None`-or-value results (`dict.get`, a function returning `None`). */
module Options {
  datatype Option<+T> = None | Some(value: T)
}
