/** A value that may be absent: a mutex that a thread wants, the captures of a match, a file that opens. */
module Options {

  datatype Option<T> = None | Some(value: T)
}
