/** Values that Java and Kotlin express with a nullable reference. */
module Common {

  /** `None` stands for the host's `null`. */
  datatype Option<+T> = None | Some(value: T)
}
