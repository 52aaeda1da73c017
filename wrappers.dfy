/** Optional values, results, and the Python exceptions the modelled code can raise. */
module Wrappers {

  datatype Option<+T> = None | Some(value: T)

  datatype Result<+T, +E> = Success(value: T) | Failure(error: E)

  /** Success or failure of an operation that returns nothing. */
  datatype Outcome<+E> = Pass | Fail(error: E)

  /** The exceptions raised by the modelled code, by their Python class. */
  datatype PyError =
    | AssertionError             // a failed `assert`
    | ZeroDivisionError          // a division by zero
    | IndexError                 // `s[0]` of an empty string
    | KeyError(key: string)      // a dictionary lookup of a missing key
    | ValueError(reason: string) // a tuple unpacking of the wrong length, a restore from no checkpoint
    | TypeError(reason: string)  // an argument of the wrong type or given twice
    | OSError(path: string)      // listing a directory that does not exist
}
