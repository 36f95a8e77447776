/** A value that may be absent: a null function pointer, a missing map key. */
module Optional {
  datatype Option<T> = None | Some(value: T)
}
