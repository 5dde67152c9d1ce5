/** The optional value that map lookups and environment lookups return. */
module Optional {

  datatype Option<+T> = None | Some(value: T)
}
