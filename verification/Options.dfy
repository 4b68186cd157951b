/** A value that may be missing, as Python's None stands for. */
module Options {

  datatype Option<+T> = None | Some(value: T)
}
