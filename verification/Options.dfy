/** The optional value used for Go's nil pointers, missing map entries and absent errors. */
module Options {
  datatype Option<+T> = None | Some(value: T)
}
