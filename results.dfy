/** Failure values for the Python exceptions the modelled code raises or relies on. */
module Results {

  /** The exception a Python operation would raise. */
  datatype Error =
    | NotImplementedError   // an operand of an unsupported type
    | IndexError            // a vector component other than 0 or 1
    | ZeroDivisionError     // a float divided by zero
    | AttributeError        // a call to a method the class does not define
    | AssertionError        // a failed `assert` statement
    | ValueError            // `min`/`max` of an empty sequence
    | KeyError              // a dictionary lookup of a missing key
    | TypeError             // iterating over `None`

  datatype Result<+T> = Ok(value: T) | Err(error: Error)

  datatype Option<+T> = None | Some(value: T)
}
