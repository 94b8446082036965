/** Optional values and results with an error, for parsed configuration
    entries that may be absent and for operations that may raise. */
module Results {

  datatype Option<T> = None | Some(value: T) {
    /** `dict.get(key, default)` once the lookup has been made. */
    function GetOr(default: T): T
    {
      match this
      case Some(v) => v
      case None => default
    }
  }

  datatype Result<T, E> = Success(value: T) | Failure(error: E)
}
