/** Failure-carrying results for the Python exceptions the client can raise. */
module Base {

  /** The exceptions of the client that the model keeps track of. */
  datatype Failure =
    | KeyError(key: string)   // a dictionary lookup of a missing key
    | TypeError               // indexing a value that is not a dictionary by a string
    | NameError(name: string) // use of an undefined name
    | ValueError              // json.loads on text that is not JSON

  datatype Option<+T> = None | Some(value: T)

  datatype Result<+T> = Ok(value: T) | Err(error: Failure)
}
