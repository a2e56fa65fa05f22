/** The parallel command layer: the `Command` interface as a datatype, the
    three command classes' `execute`, and the mutable `CommandFactory` table. */
module Commands {
  import opened Outcomes
  import opened Positions
  import opened Directions
  import opened Rooms
  import opened Robots
  import Simulation

  /** The implementations of the `Command` interface. */
  datatype Command = TurnLeftCommand | TurnRightCommand | MoveForwardCommand

  /** What `execute(robot, room)` does to the robot's state, as a value. The
      turns never fail and ignore the room; the forward move goes to the next
      cell when the room holds it and checks the room only, never the other
      robots. */
  function Apply(cmd: Command, s: Pose, room: Room): (r: Result<Pose>)
    ensures cmd == TurnLeftCommand ==> r == Ok(Pose(s.position, s.direction.TurnLeft()))
    ensures cmd == TurnRightCommand ==> r == Ok(Pose(s.position, s.direction.TurnRight()))
    ensures cmd == MoveForwardCommand ==>
      var next := NextPosition(s.position, s.direction);
      && (r.Ok? <==> next.Ok? && room.IsWithinBounds(next.value))
      && (r.Ok? ==> r.value == Pose(next.value, s.direction))
      && (r.Err? ==> r.error == (if next.Err? then IllegalArgument else OutOfBounds))
  {
    match cmd
    case TurnLeftCommand => Ok(Pose(s.position, s.direction.TurnLeft()))
    case TurnRightCommand => Ok(Pose(s.position, s.direction.TurnRight()))
    case MoveForwardCommand =>
      match NextPosition(s.position, s.direction)
      case Err(e) => Err(e)
      case Ok(next) =>
        if !room.IsWithinBounds(next) then Err(OutOfBounds) else Ok(Pose(next, s.direction))
  }

  /** `TurnLeftCommand.execute`: an unconditional left turn; the room is unused. */
  method ExecuteTurnLeft(robot: Robot, room: Room)
    modifies robot
    ensures robot.State() == Apply(TurnLeftCommand, old(robot.State()), room).value
  {
    robot.TurnLeft();
  }

  /** `TurnRightCommand.execute`: an unconditional right turn; the room is unused. */
  method ExecuteTurnRight(robot: Robot, room: Room)
    modifies robot
    ensures robot.State() == Apply(TurnRightCommand, old(robot.State()), room).value
  {
    robot.TurnRight();
  }

  /** `MoveForwardCommand.execute`: the next cell is computed, checked against
      the room, and then the robot's own unchecked move commits it. On a
      failure the robot is untouched. */
  method ExecuteMoveForward(robot: Robot, room: Room) returns (err: Option<Error>)
    modifies robot
    ensures var r := Apply(MoveForwardCommand, old(robot.State()), room);
      && robot.State() == (if r.Ok? then r.value else old(robot.State()))
      && err == (if r.Ok? then None else Some(r.error))
  {
    var next := NextPosition(robot.position, robot.direction);
    if next.Err? {
      return Some(next.error);
    }
    if !room.IsWithinBounds(next.value) {
      return Some(OutOfBounds);
    }
    err := robot.MoveForward();
  }

  /** `Command.execute`, dispatched on the implementation. */
  method Execute(cmd: Command, robot: Robot, room: Room) returns (err: Option<Error>)
    modifies robot
    ensures var r := Apply(cmd, old(robot.State()), room);
      && robot.State() == (if r.Ok? then r.value else old(robot.State()))
      && err == (if r.Ok? then None else Some(r.error))
  {
    match cmd
    case TurnLeftCommand =>
      ExecuteTurnLeft(robot, room);
      err := None;
    case TurnRightCommand =>
      ExecuteTurnRight(robot, room);
      err := None;
    case MoveForwardCommand =>
      err := ExecuteMoveForward(robot, room);
  }

  /** The registrations made when the factory class is loaded: one key per
      command, the upper-case letters L, R and F. */
  function DefaultCommands(): (m: map<char, Command>)
    ensures m.Keys == {'L', 'R', 'F'}
    ensures m.Values == {TurnLeftCommand, TurnRightCommand, MoveForwardCommand}
  {
    map['L' := TurnLeftCommand, 'R' := TurnRightCommand, 'F' := MoveForwardCommand]
  }

  /** The factory's static character-to-command table, as one object. */
  class CommandFactory {
    var commands: map<char, Command>

    /** The static initialiser: L, R and F and nothing else. */
    constructor ()
      ensures commands == DefaultCommands()
    {
      commands := DefaultCommands();
    }

    /** The command registered under the character, or IllegalArgumentException
        ("Unknown command"); the lookup is case-sensitive and reads only. */
    method GetCommand(instruction: char) returns (r: Result<Command>)
      ensures r.Ok? <==> instruction in commands
      ensures r.Ok? ==> r.value == commands[instruction]
      ensures r.Err? ==> r.error == IllegalArgument
    {
      if instruction !in commands {
        return Err(IllegalArgument);
      }
      r := Ok(commands[instruction]);
    }

    /** Adds or replaces the entry for the key; the other entries stay. */
    method RegisterCommand(key: char, command: Command)
      modifies this
      ensures commands == old(commands)[key := command]
    {
      commands := commands[key := command];
    }
  }

  /** The default table knows exactly the upper-case L, R and F. */
  lemma DefaultTableIsCaseSensitive()
    ensures DefaultCommands().Keys == {'L', 'R', 'F'}
    ensures 'l' !in DefaultCommands() && 'r' !in DefaultCommands() && 'f' !in DefaultCommands()
  {
  }

  /** The turn commands ignore the room, and four of them restore the direction. */
  lemma TurnCommandLaws(s: Pose, room1: Room, room2: Room)
    ensures Apply(TurnLeftCommand, s, room1) == Apply(TurnLeftCommand, s, room2)
    ensures Apply(TurnRightCommand, s, room1) == Apply(TurnRightCommand, s, room2)
    ensures var a := Apply(TurnLeftCommand, s, room1).value;
      var b := Apply(TurnLeftCommand, a, room1).value;
      var c := Apply(TurnLeftCommand, b, room1).value;
      Apply(TurnLeftCommand, c, room1).value == s
    ensures var a := Apply(TurnRightCommand, s, room1).value;
      var b := Apply(TurnRightCommand, a, room1).value;
      var c := Apply(TurnRightCommand, b, room1).value;
      Apply(TurnRightCommand, c, room1).value == s
  {
  }

  /** The two command layers agree on every character except for collisions:
      the service rejects the characters the default table does not know,
      with the same error the factory uses, and otherwise does what the
      registered command does, except that a forward move onto another
      stored robot's cell is a Collision in the service only. */
  lemma LayersAgree(s: Pose, c: char, room: Room, snap: Simulation.Snapshot)
    ensures c !in DefaultCommands() ==> Simulation.Step(s, c, room, snap) == Err(IllegalArgument)
    ensures c in DefaultCommands() ==>
      Simulation.Step(s, c, room, snap) ==
        match Apply(DefaultCommands()[c], s, room)
        case Err(e) => Err(e)
        case Ok(t) =>
          if DefaultCommands()[c] == MoveForwardCommand && t.position in snap.others
          then Err(Collision) else Ok(t)
  {
  }

  /** The command layer lets a robot step onto another robot's cell, where the
      service reports a Collision: from (2, 1) facing north with a robot on (2, 2). */
  lemma MoveForwardIgnoresOtherRobots()
    ensures var s := Pose(Position(2, 1), North);
      var snap := Simulation.Snapshot({Position(2, 2)}, true);
      && Apply(MoveForwardCommand, s, Room(5, 5)) == Ok(Pose(Position(2, 2), North))
      && Simulation.Step(s, 'F', Room(5, 5), snap) == Err(Collision)
  {
  }
}
