/** The optional value a device's address decoder produces. */
module Optional {
  datatype Option<T> = None | Some(value: T)
}
