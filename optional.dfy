/** A value that may be missing: JavaScript's `null` (or an absent key) as `None`. */
module Optional {
  datatype Option<+T> = None | Some(value: T)
}
