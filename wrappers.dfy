/** Optional values, results and the errors the dashboard's core can raise. */
module Wrappers {

  /** Python's `X | None`. */
  datatype Option<+T> = None | Some(value: T)

  /**
   * The exceptions the modelled code raises, and the model's own rejection of ill-typed
   * values (`IllTyped`), which Python does not make.
   */
  datatype Error =
    | NotFound(branch: string)           // `ValueError`: no searched pipeline is for the branch
    | MissingArgument(argument: string)  // `TypeError`: a required keyword argument is absent
    | UnexpectedArgument                 // `TypeError`: a keyword the dataclass does not declare
    | NotAMapping                        // `TypeError` of `**`, or `AttributeError` of `.items()`, on a value that is no dict
    | IllTyped(argument: string)         // no Python counterpart: a value whose JSON type the field's annotation excludes
    | InvalidEntry                       // some entry of a nested dict could not be rebuilt: the `TypeError` of the keyword call on it, or an `IllTyped` rejection inside it
    | KeyError(key: string)              // `KeyError`: indexing a dict at a key it does not have
    | NoAttribute(attribute: string)     // `AttributeError`: an attribute read on a plain dict

  /** A value or the exception that replaced it; usable with `:-`. */
  datatype Result<+R> = Success(value: R) | Failure(error: Error) {

    predicate IsFailure() {
      Failure?
    }

    function PropagateFailure<U>(): Result<U>
      requires Failure?
    {
      Failure(error)
    }

    function Extract(): R
      requires Success?
    {
      value
    }
  }
}
