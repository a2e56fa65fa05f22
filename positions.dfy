/** Grid positions: the record `Position(x, y)` and its validating constructor. */
module Positions {
  import opened Outcomes

  /** A position that exists. Its coordinates are natural numbers, because the
      record's constructor rejects every negative coordinate. */
  datatype Position = Position(x: nat, y: nat)

  /** The record's canonical constructor, which throws IllegalArgumentException
      when either coordinate is negative and otherwise keeps both as given. */
  function NewPosition(x: int, y: int): (r: Result<Position>)
    ensures r.Err? <==> x < 0 || y < 0
    ensures r.Err? ==> r.error == IllegalArgument
    ensures r.Ok? ==> r.value.x == x && r.value.y == y
  {
    if x < 0 || y < 0 then Err(IllegalArgument) else Ok(Position(x, y))
  }

  /** Record equality is structural: two positions are equal exactly when both
      coordinates match. */
  lemma PositionEquality(p: Position, q: Position)
    ensures p == q <==> p.x == q.x && p.y == q.y
  {
  }
}
