/** Option and Result types, and the error conditions the engine raises. */
module Wrappers {

  datatype Option<T> = None | Some(value: T)
  {
    function GetOr(default: T): T
    {
      match this
      case None => default
      case Some(v) => v
    }
  }

  /** The exceptions raised by the engine, one constructor per raise site kind. */
  datatype Error =
    | YearTooEarly(year: int)           // a transaction dated before 2010
    | YearTooLate(year: int)            // a transaction dated after 2100
    | MissingSymbol                     // the Symbol column is empty or 'nan'
    | UnknownPositionType               // neither a stock nor a put or call
    | UnknownSubcode(subcode: string)   // quantity of a transaction whose subcode has no sign
    | UnexpectedCode(code: string)      // quantity of a transaction that is not a trade
    | UnexpectedOpenClose(value: string)
    | ConsumeExceedsLot                 // consume more than a lot holds
    | ZeroDivision                      // a proportion with a zero denominator
    | NoPreviousPosition                // a close with nothing to close against
    | MoreThanAvailable                 // a close larger than the open lots
    | DescriptionNotText                // a description that is missing (NaN)
    | UnknownMoneyMovement(subcode: string)
    | MissingAttribute(name: string)    // a field the per-year record does not declare

  /** Some element of a non-empty set, for a loop that visits a dictionary's keys once each. */
  method Pick<T>(s: set<T>) returns (x: T)
    requires s != {}
    ensures x in s
  {
    x :| x in s;
  }

  datatype Result<T> = Ok(value: T) | Err(error: Error)
  {
    predicate IsFailure()
    {
      Err?
    }

    function PropagateFailure<U>(): Result<U>
      requires Err?
    {
      Err(error)
    }

    function Extract(): T
      requires Ok?
    {
      value
    }
  }
}
