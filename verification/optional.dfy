/** A value that may be absent: JavaScript's `undefined`, or an entry that
    is not there. */
module Optional {
  datatype Option<T> = None | Some(value: T)
}
