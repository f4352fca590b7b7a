/** Failure-carrying values shared by the table and the account model. */
module Results {

  /** An optional value: `None` where the source yields nothing. */
  datatype Option<+T> = None | Some(value: T) {

    /** The value, or `default` when there is none. */
    function GetOr(default: T): T
    {
      match this
      case Some(v) => v
      case None => default
    }
  }

  /** Either a value or the error the source would raise instead. */
  datatype Result<+T, +E> = Success(value: T) | Failure(error: E)
}
