/** The optional value used wherever the Go code has nil or a missing entry. */
module Options {

  datatype Option<+T> = None | Some(value: T)

}
