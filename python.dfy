/** The parts of Python's runtime that the model needs: the exceptions the
    library raises or lets through, and a Result wrapper standing for
    "returned a value" or "raised". */
module Python {

  datatype Option<+T> = None | Some(value: T)

  /** Exceptions that can leave the library. `Raised` stands for any exception
      raised by code the library calls back into (the body of a scope). */
  datatype PyError =
    | AssertionError(message: string)
    | AttributeError
    | IndexError
    | KeyError(key: string)
    | TypeError
    | Raised(name: string)

  datatype Result<+T> = Ok(value: T) | Err(error: PyError)

  /** The messages of the library's own `assert` statements. */
  const AlreadyConnected: string := "Database already connected"
  const NotConnected: string := "Database is not connected"
}
