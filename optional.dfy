/** An optional value: an attribute that may be absent, a parse that may not apply. */
module Optional {
  datatype Option<+T> = None | Some(value: T)
}
