/** Python's optional values and the two ways a Python call ends: it returns a value or it raises. */
module Outcomes {

  datatype Option<T> = None | Some(value: T)

  /** The exceptions the modelled code can raise. */
  datatype Fault =
    | NoResponse                  // a transport failure handed `None` to `response['result']` (TypeError)
    | MissingKey(key: string)     // `d[key]` on a dict without that key (KeyError)
    | Unhashable                  // a list or dict used as a dict key in `x in d` (TypeError)
    | NotIterable                 // `key in x` where x is a number, a boolean or None (TypeError)
    | BadIndex                    // `x['key']` where x is a string or a list (TypeError)

  datatype Outcome<T> = Returned(value: T) | Raised(fault: Fault)
}
