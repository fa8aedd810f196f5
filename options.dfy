/** The optional value used wherever the source has `None` or an operation can fail. */
module Options {

  datatype Option<+T> = None | Some(value: T)

  /** The stored value, or `default` when there is none. */
  function GetOr<T>(o: Option<T>, default: T): T
  {
    match o
    case Some(v) => v
    case None => default
  }
}
