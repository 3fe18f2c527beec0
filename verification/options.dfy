/** An optional value: the answer of a driver call that may fail. */
module Options {

  datatype Option<+T> = None | Some(value: T)
}
