/**
 * Outcomes of the scripts' operations: a value, or the Python exception that the
 * operation raises.  Each constructor of `Exc` stands for one exception class the
 * scripts raise (or provoke) on a given path.
 */
module Outcome {

  datatype Exc =
    | KeyError(key: string)              // d[key] on a dict without key
    | IndexError                         // xs[i] outside the list
    | ValueError(message: string)        // raise ValueError(...), int() of a non-number
    | NameError(name: string)            // a bare name that is defined nowhere
    | StopIteration                      // next() on an exhausted iterator
    | SampleNotFoundError(alias: string) // the telemetry service's own exception
    | SampleNotRegistered                // SampleNotRegisteredException
    | StudyNotRegistered                 // StudyNotRegisteredException
    | Raised(message: string)            // raise Exception(message)
    | AttributeError(name: string)       // obj.name on a value without that attribute
    | TypeError(message: string)         // an operation applied to a value of the wrong type

  datatype Result<+T> = Ok(value: T) | Err(error: Exc) {
    predicate IsFailure() { Err? }

    function PropagateFailure<U>(): Result<U>
      requires Err?
    {
      Err(error)
    }

    function Extract(): T
      requires Ok?
    {
      value
    }
  }

  datatype Option<+T> = None | Some(value: T)
}
