/** Failure-carrying datatypes shared by every module of the model. */
module Base {

  datatype Option<+T> = None | Some(value: T)

  /** The Python exception a step of the program raises; nothing in the
      modelled code catches one except `ValueError` during score validation. */
  datatype Exception =
    | ValueError      // int() of a malformed string, list.index of a missing item
    | TypeError       // int() of None or of a list
    | KeyError        // a dict lookup of an unknown key
    | IndexError      // a tuple or list index out of range
    | AttributeError  // .split() called on None or on a list
    | ZeroDivisionError
    | DatabaseError   // sqlite3 refusing a parameter it cannot bind (a list)

  /** The outcome of a step that either returns a value or raises. */
  datatype Result<+T> = Ok(value: T) | Err(error: Exception)
}
