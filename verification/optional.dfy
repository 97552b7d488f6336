/** An optional value: a reading the host may not be able to give, a timer handle that may be absent. */
module Optional {
  datatype Option<T> = None | Some(value: T)
}
