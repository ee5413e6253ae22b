/** A JavaScript value that may be `null`, as the slice's measurement fields are before the first check. */
module Optional {

  datatype Option<+T> = None | Some(value: T)
}
