/** The optional-value wrapper shared by every module of the model. */
module Optional {

  /** `None` stands for PHP's `null` where the library uses it as "no value". */
  datatype Option<+T> = None | Some(value: T)
}
