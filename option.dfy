/** The optional value used for "not found" results (npos, a null pointer,
    a failed file open, a failed conversion). */
module Optional {
  datatype Option<+T> = None | Some(value: T)
}
