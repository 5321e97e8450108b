/** An optional value: a slot that may be empty (JavaScript's `null`). */
module Optional {

  datatype Option<+T> = None | Some(value: T)
}
