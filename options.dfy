/** The usual optional value, for scans that may convert nothing and lookups that may find nothing. */
module Options {
  datatype Option<+T> = None | Some(value: T)
}
