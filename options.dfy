/** The optional value that stands for a JavaScript `undefined` or `null` result. */
module Options {

  datatype Option<+T> = None | Some(value: T)
}
