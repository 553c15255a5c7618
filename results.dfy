/*
 * Optional values and the exceptions of the Python code, as values.
 */
module Results {

  datatype Option<T> = None | Some(value: T)

  /** The exceptions the modelled code can raise. */
  datatype Error =
    | KeyError(key: string)      // a direction string missing from a dict
    | IndexError(index: int)     // a list index out of range
    | UnboundLocalError          // a local read before any assignment

  datatype Result<T> = Success(value: T) | Failure(error: Error)
}
