/** The optional-value wrapper shared by every module of the model. */
module Options {

  /** A value that may be absent: a Python `None`, a missing dict key, an unbound local. */
  datatype Option<+T> = None | Some(value: T)
}
