/** The three kinds of position (tastyworksTaxes/position.py). */
module Positions {

  datatype PositionType = Stock | Put | Call

  /** The enum member's name in upper case, as the classifier reports it. */
  function UpperName(t: PositionType): string
  {
    match t
    case Stock => "STOCK"
    case Put => "PUT"
    case Call => "CALL"
  }
}
