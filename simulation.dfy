/** The command-execution engine: `SimulationService.executeCommands` and its
    helpers, specified by a pure step function over robot states. */
module Simulation {
  import opened Outcomes
  import opened Positions
  import opened Directions
  import opened Rooms
  import opened Robots
  import opened Repository

  /** What the collision scan of a move can meet: the cells of the stored
      robots other than the mover, and whether the mover itself is stored
      (then the scan also meets the mover, on its current cell). */
  datatype Snapshot = Snapshot(others: set<Position>, holdsMover: bool) {
    function Occupied(moverAt: Position): set<Position> {
      if holdsMover then others + {moverAt} else others
    }
  }

  /** The service's own copy of the next-cell switch; it gives the same cell,
      or the same error, as the robot's calculation. */
  function CalculateNewPosition(s: Pose): (r: Result<Position>)
    ensures r == NextPosition(s.position, s.direction)
  {
    match s.direction
    case North => NewPosition(s.position.x, s.position.y + 1)
    case East => NewPosition(s.position.x + 1, s.position.y)
    case South => NewPosition(s.position.x, s.position.y - 1)
    case West => NewPosition(s.position.x - 1, s.position.y)
  }

  /** The service's own left-turn table; it agrees with the direction's. */
  function TurnedLeft(d: Direction): (r: Direction)
    ensures r == d.TurnLeft()
  {
    match d
    case North => West
    case West => South
    case South => East
    case East => North
  }

  /** The service's own right-turn table; it agrees with the direction's. */
  function TurnedRight(d: Direction): (r: Direction)
    ensures r == d.TurnRight()
  {
    match d
    case North => East
    case East => South
    case South => West
    case West => North
  }

  /** The bounds check: OutOfBounds exactly for the cells the room does not hold. */
  function ValidatePosition(room: Room, p: Position): (r: Option<Error>)
    ensures r == None <==> room.IsWithinBounds(p)
    ensures r != None ==> r == Some(OutOfBounds)
  {
    if p.x < 0 || p.x >= room.width || p.y < 0 || p.y >= room.height then Some(OutOfBounds) else None
  }

  /** One 'F': compute the target, check it against the room, then against
      every scanned cell, and only then commit. The mover's own cell never
      blocks it, because the target always differs from that cell. */
  function MoveStep(s: Pose, room: Room, snap: Snapshot): (r: Result<Pose>)
    ensures var next := NextPosition(s.position, s.direction);
      && (r.Ok? <==> next.Ok? && room.IsWithinBounds(next.value) && next.value !in snap.others)
      && (r.Ok? ==> r.value == Pose(next.value, s.direction))
      && (r.Err? ==> r.error == (if next.Err? then IllegalArgument
                                 else if !room.IsWithinBounds(next.value) then OutOfBounds
                                 else Collision))
  {
    match CalculateNewPosition(s)
    case Err(e) => Err(e)
    case Ok(target) =>
      match ValidatePosition(room, target)
      case Some(e) => Err(e)
      case None =>
        if target in snap.Occupied(s.position) then Err(Collision) else Ok(Pose(target, s.direction))
  }

  /** The effect of one command character. */
  function Step(s: Pose, c: char, room: Room, snap: Snapshot): (r: Result<Pose>)
    ensures r.Err? ==> c == 'F' || r.error == IllegalArgument
    ensures r.Ok? ==> r.value.position == s.position ||
                      (room.IsWithinBounds(r.value.position) && r.value.position !in snap.others)
  {
    match c
    case 'F' => MoveStep(s, room, snap)
    case 'L' => Ok(Pose(s.position, TurnedLeft(s.direction)))
    case 'R' => Ok(Pose(s.position, TurnedRight(s.direction)))
    case _ => Err(IllegalArgument)
  }

  /** Where a command string leaves the robot, and the error that stopped it, if any. */
  datatype Outcome = Outcome(pose: Pose, error: Option<Error>)

  /** Runs the characters in order and stops at the first one that fails; the
      effects of the characters before it are kept. The robot ends where it
      started or on a cell inside the room that no other stored robot holds,
      and a run that completes held only F, L and R. */
  function Run(s: Pose, commands: string, room: Room, snap: Snapshot): (o: Outcome)
    ensures o.pose.position == s.position ||
            (room.IsWithinBounds(o.pose.position) && o.pose.position !in snap.others)
    ensures o.error == None ==> forall i :: 0 <= i < |commands| ==> commands[i] in "FLR"
    decreases |commands|
  {
    if commands == [] then Outcome(s, None)
    else
      match Step(s, commands[0], room, snap)
      case Err(e) => Outcome(s, Some(e))
      case Ok(t) => Run(t, commands[1..], room, snap)
  }

  /** Turns always commit and never move the robot; characters other than
      F, L and R are rejected. */
  lemma TurnsAndUnknownCommands(s: Pose, c: char, room: Room, snap: Snapshot)
    ensures Step(s, 'L', room, snap) == Ok(Pose(s.position, s.direction.TurnLeft()))
    ensures Step(s, 'R', room, snap) == Ok(Pose(s.position, s.direction.TurnRight()))
    ensures c !in "FLR" ==> Step(s, c, room, snap) == Err(IllegalArgument)
  {
  }

  /** A run starting inside the room on a cell no other stored robot holds
      ends inside the room on such a cell, whether it completes or aborts. */
  lemma {:induction false} RunKeepsRobotSafe(s: Pose, commands: string, room: Room, snap: Snapshot)
    requires room.IsWithinBounds(s.position) && s.position !in snap.others
    ensures var p := Run(s, commands, room, snap).pose.position;
      room.IsWithinBounds(p) && p !in snap.others
    decreases |commands|
  {
    if commands != [] {
      match Step(s, commands[0], room, snap)
      case Err(_) =>
      case Ok(t) => RunKeepsRobotSafe(t, commands[1..], room, snap);
    }
  }

  /** Running a + b is running a, then, if a completed, running b from where a left off. */
  lemma {:induction false} RunConcat(s: Pose, a: string, b: string, room: Room, snap: Snapshot)
    ensures Run(s, a + b, room, snap) ==
      var o := Run(s, a, room, snap);
      if o.error == None then Run(o.pose, b, room, snap) else o
    decreases |a|
  {
    if a == [] {
      assert a + b == b;
    } else {
      assert (a + b)[0] == a[0];
      assert (a + b)[1..] == a[1..] + b;
      match Step(s, a[0], room, snap)
      case Err(_) =>
      case Ok(t) => RunConcat(t, a[1..], b, room, snap);
    }
  }

  /** Fail-fast: a run that stops with an error stopped at some character k;
      the characters before k all took effect and left the robot where it
      ends, character k failed with that error from there, and nothing after
      k ran. */
  lemma {:induction false} RunStopsAtFirstFailure(s: Pose, commands: string, room: Room, snap: Snapshot)
    requires Run(s, commands, room, snap).error.Some?
    ensures var o := Run(s, commands, room, snap);
      exists k :: 0 <= k < |commands| &&
        Run(s, commands[..k], room, snap) == Outcome(o.pose, None) &&
        Step(o.pose, commands[k], room, snap) == Err(o.error.value)
    decreases |commands|
  {
    var o := Run(s, commands, room, snap);
    match Step(s, commands[0], room, snap)
    case Err(e) =>
      assert commands[..0] == [];
      assert Run(s, commands[..0], room, snap) == Outcome(o.pose, None);
    case Ok(t) =>
      var rest := commands[1..];
      RunStopsAtFirstFailure(t, rest, room, snap);
      var k :| 0 <= k < |rest| &&
        Run(t, rest[..k], room, snap) == Outcome(o.pose, None) &&
        Step(o.pose, rest[k], room, snap) == Err(o.error.value);
      assert commands[..k + 1][0] == commands[0];
      assert commands[..k + 1][1..] == rest[..k];
      assert commands[k + 1] == rest[k];
      assert Run(s, commands[..k + 1], room, snap) == Outcome(o.pose, None);
  }

  class SimulationService {
    const repository: RobotRepository
    const room: Room

    constructor (repository: RobotRepository, room: Room)
      ensures this.repository == repository && this.room == room
    {
      this.repository := repository;
      this.room := room;
    }

    /** The cells of all stored robots, as the collision scan sees them now. */
    ghost function ScannedCells(): set<Position>
      reads repository, repository.store.Values
    {
      set k | k in repository.store :: repository.store[k].position
    }

    /** The store as a move of `robot` is checked against it. */
    ghost function SnapshotFor(robot: Robot): Snapshot
      reads repository, repository.store.Values
    {
      Snapshot(set k | k in repository.store && repository.store[k] != robot :: repository.store[k].position,
               robot in repository.store.Values)
    }

    /** Every stored robot is inside the room, and no two stored robots share a cell. */
    ghost predicate Settled()
      reads repository, repository.store.Values
    {
      && (forall k :: k in repository.store ==> room.IsWithinBounds(repository.store[k].position))
      && (forall k1, k2 ::
            (k1 in repository.store && k2 in repository.store &&
             repository.store[k1] != repository.store[k2]) ==>
            repository.store[k1].position != repository.store[k2].position)
    }

    /** The scan over all stored robots meets the other robots' cells, plus the
        mover's own cell when the mover is stored. */
    lemma ScanSeesSnapshot(robot: Robot)
      ensures ScannedCells() == SnapshotFor(robot).Occupied(robot.position)
    {
    }

    /** `checkCollision`: a Collision exactly when some stored robot stands on
        the target. */
    method CheckCollision(target: Position) returns (err: Option<Error>)
      ensures err == None <==> target !in ScannedCells()
      ensures err != None ==> err == Some(Collision)
    {
      var all := repository.FindAll();
      var keys := all.Keys;
      while keys != {}
        invariant keys <= all.Keys
        invariant forall k :: k in all && k !in keys ==> all[k].position != target
        decreases keys
      {
        var k :| k in keys;
        if all[k].position == target {
          return Some(Collision);
        }
        keys := keys - {k};
      }
      return None;
    }

    /** The service's forward move: on any failure the robot is untouched. */
    method MoveForward(robot: Robot) returns (err: Option<Error>)
      modifies robot
      ensures var r := MoveStep(old(robot.State()), room, old(SnapshotFor(robot)));
        && robot.State() == (if r.Ok? then r.value else old(robot.State()))
        && err == (if r.Ok? then None else Some(r.error))
    {
      ScanSeesSnapshot(robot);
      var target := CalculateNewPosition(robot.State());
      if target.Err? {
        return Some(target.error);
      }
      err := ValidatePosition(room, target.value);
      if err.Some? {
        return;
      }
      err := CheckCollision(target.value);
      if err.Some? {
        return;
      }
      robot.position := target.value;
    }

    /** The service's left turn, by its own table. */
    method TurnLeft(robot: Robot)
      modifies robot
      ensures robot.State() == Pose(old(robot.position), TurnedLeft(old(robot.direction)))
    {
      robot.direction := TurnedLeft(robot.direction);
    }

    /** The service's right turn, by its own table. */
    method TurnRight(robot: Robot)
      modifies robot
      ensures robot.State() == Pose(old(robot.position), TurnedRight(old(robot.direction)))
    {
      robot.direction := TurnedRight(robot.direction);
    }

    /** `executeCommands`: the robot ends where `Run` says, with the error `Run`
        stops on; the other stored robots do not move; a robot that starts
        safe stays safe; and a settled store stays settled. */
    method ExecuteCommands(robot: Robot, commands: string) returns (err: Option<Error>)
      modifies robot
      ensures var o := Run(old(robot.State()), commands, room, old(SnapshotFor(robot)));
        robot.State() == o.pose && err == o.error
      ensures SnapshotFor(robot) == old(SnapshotFor(robot))
      ensures old(room.IsWithinBounds(robot.position) && robot.position !in SnapshotFor(robot).others) ==>
                room.IsWithinBounds(robot.position) && robot.position !in SnapshotFor(robot).others
      ensures old(Settled()) && robot in repository.store.Values ==> Settled()
    {
      ghost var start := robot.State();
      ghost var snap := SnapshotFor(robot);
      ghost var wasSettled := Settled();
      ghost var stored := robot in repository.store.Values;
      err := None;
      var i := 0;
      while i < |commands|
        invariant 0 <= i <= |commands|
        invariant err == None
        invariant SnapshotFor(robot) == snap
        invariant Run(start, commands, room, snap) == Run(robot.State(), commands[i..], room, snap)
      {
        var command := commands[i];
        assert commands[i..][0] == command && commands[i..][1..] == commands[i + 1..];
        if command == 'F' {
          err := MoveForward(robot);
          if err.Some? {
            break;
          }
        } else if command == 'L' {
          TurnLeft(robot);
        } else if command == 'R' {
          TurnRight(robot);
        } else {
          err := Some(IllegalArgument);
          break;
        }
        i := i + 1;
      }
      if err == None {
        assert commands[i..] == [];
      }
      assert Run(start, commands, room, snap) == Outcome(robot.State(), err);
      if wasSettled && stored {
        var k0 :| k0 in repository.store && repository.store[k0] == robot;
        assert room.IsWithinBounds(start.position);
        assert start.position !in snap.others;
      }
      if room.IsWithinBounds(start.position) && start.position !in snap.others {
        RunKeepsRobotSafe(start, commands, room, snap);
      }
    }
  }
}
