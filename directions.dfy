/** The four compass directions, their symbols and their rotation tables. */
module Directions {
  import opened Outcomes

  datatype Direction = North | East | South | West {

    /** The symbol the enum constant is declared with: its upper-case initial. */
    function Symbol(): (c: char)
      ensures c in "NESW" && ToUpper(c) == c
    {
      match this
      case North => 'N'
      case East => 'E'
      case South => 'S'
      case West => 'W'
    }

    /** A 90-degree counter-clockwise rotation: the unit step (dx, dy)
        becomes (-dy, dx). */
    function TurnLeft(): (r: Direction)
      ensures r.DX() == -DY() && r.DY() == DX()
    {
      match this
      case North => West
      case West => South
      case South => East
      case East => North
    }

    /** A 90-degree clockwise rotation: the unit step (dx, dy) becomes (dy, -dx). */
    function TurnRight(): (r: Direction)
      ensures r.DX() == DY() && r.DY() == -DX()
    {
      match this
      case North => East
      case East => South
      case South => West
      case West => North
    }

    /** East-west component of one step this way (x grows to the east). */
    function DX(): int {
      match this
      case East => 1
      case West => -1
      case _ => 0
    }

    /** North-south component of one step this way (y grows to the north). */
    function DY(): int {
      match this
      case North => 1
      case South => -1
      case _ => 0
    }
  }

  /** `Character.toUpperCase` on the ASCII letters a-z and on U+017F (LATIN
      SMALL LETTER LONG S), whose upper case is 'S'. Every other character is
      left as it is. Among the characters outside a-z, U+017F is the only one
      whose upper case is N, E, S or W, so leaving the others unchanged
      changes no answer of `FromSymbol`. */
  function ToUpper(c: char): char {
    if 'a' <= c <= 'z' then (c as int - 32) as char
    else if c == '\U{017F}' then 'S'
    else c
  }

  /** `Direction.fromSymbol`: the symbol is upper-cased, then matched against
      the four direction symbols; any other character is rejected with
      IllegalArgumentException. */
  function FromSymbol(c: char): (r: Result<Direction>)
    ensures r.Ok? <==> c in "NESWnesw\U{017F}"
    ensures r.Err? ==> r.error == IllegalArgument
    ensures r.Ok? ==> r.value.Symbol() == ToUpper(c)
  {
    match ToUpper(c)
    case 'N' => Ok(North)
    case 'E' => Ok(East)
    case 'S' => Ok(South)
    case 'W' => Ok(West)
    case _ => Err(IllegalArgument)
  }

  /** Parsing a direction's own symbol gives that direction back. */
  lemma SymbolRoundTrip(d: Direction)
    ensures FromSymbol(d.Symbol()) == Ok(d)
  {
  }

  /** The lower-case symbols are accepted too. */
  lemma LowerCaseSymbols()
    ensures FromSymbol('n') == Ok(North) && FromSymbol('e') == Ok(East)
    ensures FromSymbol('s') == Ok(South) && FromSymbol('w') == Ok(West)
    ensures FromSymbol('x') == Err(IllegalArgument)
  {
  }

  /** The rotation tables form the cyclic group of order four: the two turns
      undo each other, four equal turns are the identity, two left turns equal
      two right turns, and no turn keeps the direction. */
  lemma RotationLaws(d: Direction)
    ensures d.TurnLeft().TurnRight() == d && d.TurnRight().TurnLeft() == d
    ensures d.TurnLeft().TurnLeft().TurnLeft().TurnLeft() == d
    ensures d.TurnRight().TurnRight().TurnRight().TurnRight() == d
    ensures d.TurnLeft().TurnLeft() == d.TurnRight().TurnRight()
    ensures d.TurnLeft() != d && d.TurnRight() != d
  {
  }
}
