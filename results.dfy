/** Option and Result wrappers, and the exceptions the pipeline can let escape. */
module Results {

  datatype Option<+T> = None | Some(value: T)

  /** The Python exceptions that escape the pipeline and end a request with an error. */
  datatype Error =
    | InvalidDate      // ValueError from datetime.strptime on a date that does not exist
    | NotIterable      // TypeError from enumerate() on a value that is not iterable
    | NoGetMethod      // AttributeError from .get on an itinerary entry that is not a dict

  datatype Result<+T> = Ok(value: T) | Err(error: Error) {
    predicate IsFailure() { Err? }

    function PropagateFailure<U>(): Result<U>
      requires Err?
    {
      Err(error)
    }

    function Extract(): T
      requires Ok?
    {
      value
    }
  }
}
