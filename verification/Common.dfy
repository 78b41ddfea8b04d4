/** Result shapes shared by the modules of this project. */
module Common {

  datatype Option<+T> = None | Some(value: T)

  /** A refusal stands for the program's Refused exception; the text is what it reports. */
  datatype Result<+T> = Ok(value: T) | Refused(reason: string)
  {
    predicate IsFailure() { Refused? }

    function PropagateFailure<U>(): Result<U>
      requires Refused?
    {
      Refused(reason)
    }

    function Extract(): T
      requires Ok?
    {
      value
    }
  }
}
