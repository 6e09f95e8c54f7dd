/** An optional value, shared by the modules that may find nothing. */
module Optional {

  datatype Option<T> = None | Some(value: T)
}
