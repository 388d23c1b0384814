// A value that may be missing: a null pointer, a failed look-up, a failed call.
module Optional {
  datatype Option<+T> = None | Some(value: T)
}
