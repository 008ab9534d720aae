/** An optional value, for C results that may be a NULL pointer or "not found". */
module Optional {
  datatype Option<+T> = None | Some(value: T)
}
