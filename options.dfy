/** The optional-value type used wherever PHP code may yield `null` or `false`. */
module Options {

  datatype Option<+T> = None | Some(value: T)
}
