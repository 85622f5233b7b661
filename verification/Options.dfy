/** The value that is there or is not: the model of `undefined`. */
module Options {
  datatype Option<+T> = None | Some(value: T)
}
