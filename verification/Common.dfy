/** Types shared by the models. */
module Common {

  /** An optional value: a nil reference, a NULL column or an absent file. */
  datatype Option<+T> = None | Some(value: T)

}
