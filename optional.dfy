/** The "value or nothing" type used wherever the source leaves an out-parameter unwritten. */
module Optional {
  datatype Option<+T> = None | Some(value: T)
}
