/** The optional value the model uses for Python's `None`. */
module Optional {
  datatype Option<+T> = None | Some(value: T)
}
