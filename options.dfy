/** The optional value used for Java/Kotlin references that may be null. */
module Options {
  datatype Option<+T> = None | Some(value: T)
}
