/** A value that may be missing: the result of reading a key of a JavaScript
    object that may not be there. */
module Options {
  datatype Option<+T> = None | Some(value: T)
}
