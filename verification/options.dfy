/** The optional value used for partial results: a parsed timestamp, a decoded body, a file read. */
module Options {

  datatype Option<+T> = None | Some(value: T)
}
