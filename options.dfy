/** The optional value of a JavaScript parameter declared with `?`. */
module Options {
  datatype Option<+T> = None | Some(value: T)
}
