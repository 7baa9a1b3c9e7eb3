/** The optional value used throughout the model: Python's `None` next to a present value. */
module Options {
  datatype Option<+T> = None | Some(value: T)
}
