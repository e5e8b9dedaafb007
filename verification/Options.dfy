/** The conventional optional value, standing for the source's `Option<T>`. */
module Options {
  datatype Option<+T> = None | Some(value: T)
}
