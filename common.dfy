/** Option, Result and the exception kinds that the two adapters raise, let through or catch. */
module Common {

  datatype Option<+T> = None | Some(value: T)

  /** The Python exceptions the modelled code can end in. */
  datatype Error =
    | IndexError                        // a list position that does not exist
    | KeyError(key: string)             // a dataframe column that does not exist
    | AttributeError(attribute: string) // an attribute the object does not have
    | ValueError(message: string)
    | External(message: string)         // whatever a foreign SDK raises

  /** A value, or the exception that was raised instead. Usable with `:-`. */
  datatype Result<+T> = Ok(value: T) | Err(error: Error) {
    predicate IsFailure() { Err? }

    function PropagateFailure<U>(): Result<U>
      requires Err?
    {
      Err(error)
    }

    function Extract(): T
      requires Ok?
    {
      value
    }
  }
}
