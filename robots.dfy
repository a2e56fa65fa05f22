/** The robot entity: a mutable holder of an id, a position and a direction,
    with the next-cell calculation and the unchecked turn and move mutators. */
module Robots {
  import opened Outcomes
  import opened Positions
  import opened Directions

  /** A robot's mutable state taken as a value: where it stands and where it faces. */
  datatype Pose = Pose(position: Position, direction: Direction)

  /** `Robot.calculateNextPosition` on the state (p, d): a new Position one
      step away, built through the validating constructor, so a step south
      from y = 0 or west from x = 0 throws IllegalArgumentException. */
  function NextPosition(p: Position, d: Direction): (r: Result<Position>)
    ensures r.Err? <==> (d == South && p.y == 0) || (d == West && p.x == 0)
    ensures r.Err? ==> r.error == IllegalArgument
    ensures r.Ok? ==> r.value.x == p.x + d.DX() && r.value.y == p.y + d.DY()
    ensures r.Ok? ==> r.value != p
  {
    match d
    case North => NewPosition(p.x, p.y + 1)
    case East => NewPosition(p.x + 1, p.y)
    case South => NewPosition(p.x, p.y - 1)
    case West => NewPosition(p.x - 1, p.y)
  }

  /** The decimal digit for d < 10. */
  function DigitChar(d: nat): char
    requires d < 10
  {
    "0123456789"[d]
  }

  /** Java's int-to-string conversion of a natural number: decimal digits
      without leading zeros. */
  function Decimal(n: nat): (s: string)
    ensures |s| >= 1
    ensures forall i :: 0 <= i < |s| ==> '0' <= s[i] <= '9'
    ensures s[0] == '0' ==> n == 0
  {
    if n < 10 then [DigitChar(n)] else Decimal(n / 10) + [DigitChar(n % 10)]
  }

  /** Reads a string of decimal digits back as a number. */
  function DecimalValue(s: string): nat
    requires forall i :: 0 <= i < |s| ==> '0' <= s[i] <= '9'
  {
    if s == [] then 0
    else 10 * DecimalValue(s[..|s| - 1]) + (s[|s| - 1] as int - '0' as int)
  }

  /** Reading a formatted number gives the number back. */
  lemma {:induction false} DecimalRoundTrip(n: nat)
    ensures DecimalValue(Decimal(n)) == n
  {
    var s := Decimal(n);
    if n < 10 {
      assert s[..|s| - 1] == [];
    } else {
      assert s[..|s| - 1] == Decimal(n / 10);
      DecimalRoundTrip(n / 10);
    }
  }

  /** The id a robot gets from counter value n: "Robot" followed by the
      decimal digits of n, which read back as n. */
  function RobotId(n: nat): (id: string)
    ensures |id| > 5 && id[..5] == "Robot"
    ensures forall i :: 5 <= i < |id| ==> '0' <= id[i] <= '9'
    ensures DecimalValue(id[5..]) == n
  {
    DecimalRoundTrip(n);
    var id := "Robot" + Decimal(n);
    assert id[5..] == Decimal(n);
    id
  }

  /** Different counter values give different ids. */
  lemma RobotIdInjective(m: nat, n: nat)
    ensures RobotId(m) == RobotId(n) <==> m == n
  {
  }

  /** The process-wide robot counter, made an explicit object that robot
      construction bumps. It starts at 1. */
  class IdCounter {
    var next: nat

    constructor ()
      ensures next == 1
    {
      next := 1;
    }
  }

  class Robot {
    const id: string
    var position: Position
    var direction: Direction

    /** Takes the id "Robot" + counter and bumps the counter; the placement is
        stored as given, with no bounds or collision check. */
    constructor (position: Position, direction: Direction, ids: IdCounter)
      modifies ids
      ensures id == RobotId(old(ids.next))
      ensures this.position == position && this.direction == direction
      ensures ids.next == old(ids.next) + 1
    {
      id := RobotId(ids.next);
      this.position := position;
      this.direction := direction;
      new;
      ids.next := ids.next + 1;
    }

    /** The robot's state as a value. */
    function State(): Pose
      reads this
    {
      Pose(position, direction)
    }

    /** Rotates counter-clockwise; the position stays. */
    method TurnLeft()
      modifies this
      ensures direction == old(direction).TurnLeft()
      ensures position == old(position)
    {
      direction := direction.TurnLeft();
    }

    /** Rotates clockwise; the position stays. */
    method TurnRight()
      modifies this
      ensures direction == old(direction).TurnRight()
      ensures position == old(position)
    {
      direction := direction.TurnRight();
    }

    /** Steps onto the next cell with no room or collision check. Only the
        next-cell calculation can fail, and then nothing changes. */
    method MoveForward() returns (err: Option<Error>)
      modifies this
      ensures direction == old(direction)
      ensures NextPosition(old(position), old(direction)).Ok? ==>
                err == None && position == NextPosition(old(position), old(direction)).value
      ensures NextPosition(old(position), old(direction)).Err? ==>
                err == Some(IllegalArgument) && position == old(position)
    {
      var next := NextPosition(position, direction);
      if next.Err? {
        return Some(next.error);
      }
      position := next.value;
      err := None;
    }
  }
}
