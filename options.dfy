/** A value that may be absent: the model's stand-in for a Ruby attribute that may be nil. */
module Options {

  datatype Option<+T> = None | Some(value: T)
}
