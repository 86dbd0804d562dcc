/** The exceptions the mapping layer and the client configuration raise, and the
    failure-compatible Result/Option types that carry them.  Each error names the
    Python exception it stands for. */
module Errors {

  datatype Error =
    | KeyError(key: string)          // data["key"] on a dict that lacks the key
    | NotSubscriptable(key: string)  // data["key"] on a value that is not a dict (TypeError)
    | NoGetMethod(key: string)       // data.get("key") on a value that is not a dict (AttributeError)
    | NotIterable                    // a list comprehension over a value that cannot be iterated (TypeError)
    | NotAString                     // datetime.strptime given a value that is not a str (TypeError)
    | BadTimestamp(text: string)     // datetime.strptime: text is not a valid time in the format (ValueError; CPython's message is not modelled)
    | UnknownCode(code: int)         // BaseEnum.value_of: no member has this code (ValueError)
    | CannotConvert                  // Base._convert_value: the value is not a datetime (TypeError)
    | InvalidConfig(message: string) // BacklogApi.__init__: a bad parameter (ValueError)

  datatype Option<+T> = None | Some(value: T)

  datatype Result<+T> = Ok(value: T) | Err(error: Error) {
    predicate IsFailure() {
      Err?
    }

    function PropagateFailure<U>(): Result<U>
      requires Err?
    {
      Err(error)
    }

    function Extract(): T
      requires Ok?
    {
      value
    }
  }
}
