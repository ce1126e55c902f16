/** A value that may be missing: a lookup that finds nothing, an external
    call that fails. */
module Optional {
  datatype Option<T> = None | Some(value: T)
}
