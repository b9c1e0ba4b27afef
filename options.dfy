/** The optional value used throughout the model for lookups that may find nothing. */
module Options {

  datatype Option<+T> = None | Some(value: T)
}
