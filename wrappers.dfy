/** Option and Result types shared by every reformatter model.
    A Python exception that ends the batch job (KeyError, ValueError,
    NameError, exit()) is an Err value; it propagates with `:-`. */
module Wrappers {

  datatype Option<+T> = None | Some(value: T)

  /** Why a reformatter run stops. */
  datatype Error =
    | KeyError(key: string)       // a missing dictionary key or data-frame column
    | ValueError(text: string)    // float()/int() of a text that is not a number
    | NameError(name: string)     // a variable that was never bound
    | DuplicateColumn(name: string) // DataFrame.insert of a column that exists
    | Exit(message: string)       // the script calls exit()

  datatype Result<+T> = Ok(value: T) | Err(error: Error) {
    predicate IsFailure() {
      Err?
    }

    function PropagateFailure<U>(): Result<U>
      requires Err?
    {
      Err(error)
    }

    function Extract(): T
      requires Ok?
    {
      value
    }
  }
}
