/** An optional value: JavaScript's `null`/`undefined` and Python's `None`. */
module Optional {
  datatype Option<T> = None | Some(value: T)
}
