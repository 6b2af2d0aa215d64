/** A value that may be absent: JavaScript's null/undefined for a string field. */
module Optional {

  datatype Option<+T> = None | Some(value: T)
}
