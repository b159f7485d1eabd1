/** A value that may be missing: an empty id, an absent row, a call that reported an error. */
module Optional {
  datatype Option<+T> = None | Some(value: T)
}
