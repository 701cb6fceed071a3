/** The failures the wire protocol reports (dccex/protocol/errors.go), and a result type carrying them. */
module Results {
  datatype WireError = Malformed | OutOfRange | FrameTooLarge | Truncated

  datatype Option<+T> = None | Some(value: T)

  datatype Result<+T> = Ok(value: T) | Err(error: WireError) {
    predicate IsFailure() {
      Err?
    }

    function PropagateFailure<U>(): Result<U>
      requires Err?
    {
      Err(error)
    }

    function Extract(): T
      requires Ok?
    {
      value
    }
  }
}
