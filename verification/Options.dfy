/** The optional value used across the model, for the source's nil pointers and missing map keys. */
module Options {
  datatype Option<+T> = None | Some(value: T)
}
