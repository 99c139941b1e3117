/** Small helpers shared by every module of the model. */
module Common {

  /** Kotlin's nullable value: `null` is `None`. */
  datatype Option<+T> = None | Some(value: T)
}
