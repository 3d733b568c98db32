/** The failures `create_colormap` and `make_cmap_customized` can raise, and a
    failure-compatible result type carrying them. */
module Results {

  /** The Python exceptions the modelled code raises. */
  datatype PyError =
    | ValueError(message: string)
    | IndexError(message: string)
    | UnboundLocalError(variable: string)

  /** Either the value an operation returns or the exception it raises. */
  datatype Result<+T> = Ok(value: T) | Err(error: PyError) {

    predicate IsFailure() {
      Err?
    }

    function PropagateFailure<U>(): Result<U>
      requires Err?
    {
      Err(error)
    }

    function Extract(): T
      requires Ok?
    {
      value
    }
  }
}
