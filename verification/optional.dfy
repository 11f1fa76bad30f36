/** The usual Some/None datatype, used where the Go code has a lookup that can miss. */
module Optional {

  datatype Option<+T> = None | Some(value: T)
}
