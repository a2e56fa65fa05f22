# Grid-world robot simulator: movement core in Dafny

This project models the movement engine of a grid-world robot simulator. A
rectangular room holds robots. Each robot has an id, a cell and a facing
direction. A robot is driven by a string of `L` (turn left), `R` (turn right)
and `F` (move forward) characters. The engine
(`SimulationService.executeCommands`) checks every forward move against the
room's bounds and then against the cells of all stored robots. It commits the
move only if both checks pass, and the first failure aborts the rest of the
string.

Modules, one per source file:

- `Outcomes`: the error kinds (`IllegalArgument`, `OutOfBounds`, `Collision`) and the `Option`/`Result` wrappers that replace exceptions.
- `Positions`, `Directions`, `Rooms`: the value types and their validating constructors.
- `Robots`: the value `Pose` (cell and direction); the pure next-cell calculation; the id format; the id counter; the `Robot` class.
- `Repository`: the `RobotRepository` class, an id → robot map holding references.
- `Simulation`:
  - `Step` and `Run`, a pure specification of the engine over poses;
  - `Snapshot`, what the collision scan can see;
  - the `SimulationService` class, whose `ExecuteCommands` loop is proved against `Run`.
- `Commands`: the parallel command layer. It has the `Command` datatype, the three `execute` methods, and the `CommandFactory` table.
- `Scenarios`: the scenarios of `SimulationServiceTest`, replayed on the pure specification and on the classes.

Behaviour that follows the code:

- A forward step south from `y = 0` or west from `x = 0` fails in the `Position` constructor with `IllegalArgument`, not with `OutOfBounds`. This holds in the service and in `MoveForwardCommand`, whose documentation promises `RobotOutOfBoundsException` for every move out of the room.
- The service's collision scan covers every stored robot, the mover included. `Snapshot.holdsMover` records whether the mover is stored. `MoveStep`'s contract shows that this never matters, because the target always differs from the mover's cell.
- The static robot counter is an `IdCounter` object that the `Robot` constructor bumps. The static command table is one `CommandFactory` object.

## Model

| member | source | states |
|---|---|---|
| `Positions.NewPosition` | src/main/java/com/robot/domain/Position.java:20-24 | fails with IllegalArgument exactly when x < 0 or y < 0; otherwise keeps both coordinates as given (every existing Position has nat coordinates) |
| `Positions.PositionEquality` | src/main/java/com/robot/domain/Position.java:10 | two positions are equal iff both coordinates match |
| `Directions.FromSymbol` | src/main/java/com/robot/domain/Direction.java:45-58 | succeeds exactly on N, E, S, W in either case (and on U+017F, whose upper case is S), returning the direction whose symbol is the upper-cased input; IllegalArgument otherwise |
| `Directions.SymbolRoundTrip` | src/main/java/com/robot/domain/Direction.java:11-58 | parsing a direction's symbol gives the direction back |
| `Directions.LowerCaseSymbols` | src/main/java/com/robot/domain/Direction.java:45-58 | 'n', 'e', 's', 'w' parse to the four directions; 'x' is rejected |
| `Directions.RotationLaws` | src/main/java/com/robot/domain/Direction.java:66-91 | the left and right turns are mutual inverses; four equal turns are the identity; two lefts equal two rights; no turn returns its input |
| `Directions.Direction.Symbol` | src/main/java/com/robot/domain/Direction.java:11-36 | each direction's symbol is one of the upper-case letters N, E, S, W |
| `Directions.Direction.TurnLeft` | src/main/java/com/robot/domain/Direction.java:66-75 | the table N→W→S→E→N rotates the unit step counter-clockwise, (dx, dy) to (-dy, dx) |
| `Directions.Direction.TurnRight` | src/main/java/com/robot/domain/Direction.java:82-91 | the table N→E→S→W→N rotates the unit step clockwise, (dx, dy) to (dy, -dx) |
| `Rooms.NewRoom` | src/main/java/com/robot/domain/Room.java:20-24 | fails with IllegalArgument exactly when width <= 0 or height <= 0; otherwise a valid room with the given dimensions |
| `Rooms.Room.IsWithinBounds` | src/main/java/com/robot/domain/Room.java:34-36 | holds iff 0 <= x < width and 0 <= y < height; only a room with positive dimensions holds any cell |
| `Rooms.Corners` | src/main/java/com/robot/domain/Room.java:34-36 | a valid room holds (0, 0) and (width-1, height-1) and no cell with x = width or y = height |
| `Robots.NextPosition` | src/main/java/com/robot/domain/Robot.java:60-69 | the cell one unit step away, N(0,+1) E(+1,0) S(0,-1) W(-1,0); IllegalArgument exactly when facing south at y = 0 or west at x = 0; never the current cell |
| `Robots.Decimal` | src/main/java/com/robot/domain/Robot.java:31 | the counter's text is a non-empty string of decimal digits with no leading zero |
| `Robots.DecimalRoundTrip` | src/main/java/com/robot/domain/Robot.java:31 | reading the decimal text back gives the number |
| `Robots.RobotId` | src/main/java/com/robot/domain/Robot.java:31 | the id is "Robot" followed by decimal digits that read back as the counter value |
| `Robots.RobotIdInjective` | src/main/java/com/robot/domain/Robot.java:18-31 | ids "Robot"+n for different counter values differ |
| `Robots.IdCounter.constructor` | src/main/java/com/robot/domain/Robot.java:18 | the robot counter starts at 1 |
| `Robots.Robot.constructor` | src/main/java/com/robot/domain/Robot.java:30-35 | the id is "Robot" + counter and the counter is incremented; position and direction are stored unchecked |
| `Robots.Robot.TurnLeft` | src/main/java/com/robot/domain/Robot.java:40-44 | the direction becomes its left turn; the position is unchanged |
| `Robots.Robot.TurnRight` | src/main/java/com/robot/domain/Robot.java:49-53 | the direction becomes its right turn; the position is unchanged |
| `Robots.Robot.MoveForward` | src/main/java/com/robot/domain/Robot.java:74-78 | the position becomes the next cell with no room or collision check; on IllegalArgument nothing changes; the direction never changes |
| `Repository.RobotRepository.constructor` | src/main/java/com/robot/repository/RobotRepository.java:18 | the store starts empty |
| `Repository.RobotRepository.Save` | src/main/java/com/robot/repository/RobotRepository.java:25-28 | the robot is stored under its id, replacing that id's entry; every other id is untouched |
| `Repository.RobotRepository.FindById` | src/main/java/com/robot/repository/RobotRepository.java:36-40 | the robot stored under the id, or null exactly when the id is absent |
| `Repository.RobotRepository.FindAll` | src/main/java/com/robot/repository/RobotRepository.java:47-50 | the store itself, holding the same robot references |
| `Repository.RobotRepository.Delete` | src/main/java/com/robot/repository/RobotRepository.java:57-60 | only the given id is removed |
| `Simulation.CalculateNewPosition` | src/main/java/com/robot/service/SimulationService.java:72-80 | the service's next-cell switch gives the same cell or error as Robot.calculateNextPosition |
| `Simulation.TurnedLeft` | src/main/java/com/robot/service/SimulationService.java:111-120 | the service's left table N→W→S→E→N equals Direction.turnLeft |
| `Simulation.TurnedRight` | src/main/java/com/robot/service/SimulationService.java:125-134 | the service's right table N→E→S→W→N equals Direction.turnRight |
| `Simulation.ValidatePosition` | src/main/java/com/robot/service/SimulationService.java:87-93 | OutOfBounds exactly for the cells Room.isWithinBounds rejects |
| `Simulation.MoveStep` | src/main/java/com/robot/service/SimulationService.java:61-67 | one 'F': IllegalArgument if the step leaves the non-negative quadrant; else OutOfBounds if the target is outside the room; else Collision if another stored robot holds it; else the robot moves there, same direction |
| `Simulation.Step` | src/main/java/com/robot/service/SimulationService.java:45-53 | only 'F' can fail with OutOfBounds or Collision; a committed step keeps the cell or lands inside the room on a cell no other robot holds |
| `Simulation.Run` | src/main/java/com/robot/service/SimulationService.java:44-54 | the characters run in order until the first failure, whose error is reported, earlier effects kept; the robot ends where it started or inside the room on a cell no other stored robot holds; a completed run held only F, L, R |
| `Simulation.TurnsAndUnknownCommands` | src/main/java/com/robot/service/SimulationService.java:45-53 | 'L' and 'R' always commit the turn without moving; any character outside F, L, R is IllegalArgument |
| `Simulation.RunKeepsRobotSafe` | src/main/java/com/robot/service/SimulationService.java:42-67 | a robot that starts inside the room on a cell no other stored robot holds ends so, whether the string completes or aborts |
| `Simulation.RunConcat` | src/main/java/com/robot/service/SimulationService.java:44-54 | running a + b is running a and, only if it completed, then b from where a stopped |
| `Simulation.RunStopsAtFirstFailure` | src/main/java/com/robot/service/SimulationService.java:42-56 | an aborted run stopped at some character k: everything before k took effect, k failed with the reported error, nothing after ran |
| `Simulation.SimulationService.constructor` | src/main/java/com/robot/service/SimulationService.java:28-32 | keeps the repository and the room |
| `Simulation.SimulationService.ScanSeesSnapshot` | src/main/java/com/robot/service/SimulationService.java:100-102 | the scan over all stored robots meets the other robots' cells plus the mover's own cell if it is stored |
| `Simulation.SimulationService.CheckCollision` | src/main/java/com/robot/service/SimulationService.java:100-106 | Collision exactly when some stored robot stands on the target |
| `Simulation.SimulationService.MoveForward` | src/main/java/com/robot/service/SimulationService.java:61-67 | the robot ends as MoveStep says; on any error it is untouched |
| `Simulation.SimulationService.TurnLeft` | src/main/java/com/robot/service/SimulationService.java:111-120 | the direction is turned left by the service's table; the position stays |
| `Simulation.SimulationService.TurnRight` | src/main/java/com/robot/service/SimulationService.java:125-134 | the direction is turned right by the service's table; the position stays |
| `Simulation.SimulationService.ExecuteCommands` | src/main/java/com/robot/service/SimulationService.java:42-56 | the robot ends where Run says, with the error Run stops on; no other stored robot moves; a robot that starts safe stays safe; a store whose robots are all in the room on distinct cells stays so |
| `Commands.Apply` | src/main/java/com/robot/command/MoveForwardCommand.java:24-41 | the turn commands always succeed with the direction turned and the position kept; the forward command moves to the next cell, direction kept, exactly when that cell exists and is in the room, and otherwise fails with IllegalArgument at a lower edge or OutOfBounds |
| `Commands.ExecuteTurnLeft` | src/main/java/com/robot/command/TurnLeftCommand.java:22-26 | the direction becomes its left turn; the position stays; the room is unused |
| `Commands.ExecuteTurnRight` | src/main/java/com/robot/command/TurnRightCommand.java:22-26 | the direction becomes its right turn; the position stays; the room is unused |
| `Commands.ExecuteMoveForward` | src/main/java/com/robot/command/MoveForwardCommand.java:24-41 | moves to the next cell if it is in the room; otherwise OutOfBounds, or IllegalArgument at a lower edge, and the robot is untouched; no robot store is consulted |
| `Commands.Execute` | src/main/java/com/robot/command/Command.java:18 | dispatching a command does what Apply says for that command |
| `Commands.DefaultCommands` | src/main/java/com/robot/command/CommandFactory.java:16-22 | the default keys are exactly L, R, F, and each of the three commands is registered under one of them |
| `Commands.CommandFactory.constructor` | src/main/java/com/robot/command/CommandFactory.java:16-22 | the table starts as exactly L, R, F mapped to the three commands |
| `Commands.CommandFactory.GetCommand` | src/main/java/com/robot/command/CommandFactory.java:31-40 | the command registered under the character, or IllegalArgument exactly when none is; the table is not changed |
| `Commands.CommandFactory.RegisterCommand` | src/main/java/com/robot/command/CommandFactory.java:48-51 | adds or replaces only the key's entry |
| `Commands.DefaultTableIsCaseSensitive` | src/main/java/com/robot/command/CommandFactory.java:16-22 | the default keys are exactly 'L', 'R', 'F'; 'l', 'r', 'f' are unknown |
| `Commands.TurnCommandLaws` | src/main/java/com/robot/command/TurnLeftCommand.java:22-26 | the turn commands give the same result in every room, and four of them restore the direction |
| `Commands.LayersAgree` | src/main/java/com/robot/service/SimulationService.java:44-54 | the service rejects exactly the characters the default table lacks, with the same error, and otherwise does what the registered command does except that a forward move onto another robot's cell is a Collision |
| `Commands.MoveForwardIgnoresOtherRobots` | src/main/java/com/robot/command/MoveForwardCommand.java:24-41 | the command moves from (2,1) north onto an occupied (2,2), where the service reports Collision |
| `Scenarios.SaveTwice` | src/main/java/com/robot/repository/RobotRepository.java:25-28 | two saves of the same robot leave the store as one save |
| `Scenarios.DeleteAbsentAndPresent` | src/main/java/com/robot/repository/RobotRepository.java:57-60 | deleting an absent id changes nothing; deleting a saved robot's id removes it, so findById then gives null |
| `Scenarios.BasicMovement` | src/test/java/com/robot/SimulationServiceTest.java:38-45 | in a 5×5 room "RF" from (0,0) facing north ends on (1,0) facing east |
| `Scenarios.BoundaryStop` | src/test/java/com/robot/SimulationServiceTest.java:50-55 | "F" from (4,4) facing north is OutOfBounds and the robot stays |
| `Scenarios.ThreeRobotRuns` | src/test/java/com/robot/SimulationServiceTest.java:95-116 | "RF", "LF", "RF" in turn end at (1,0) east, (2,3) north and (4,1) north |

The client methods `Scenarios.ThreeRobots` and `Scenarios.CollisionStop` replay the three-robot test (SimulationServiceTest.java:95-116) and the collision test (SimulationServiceTest.java:59-71) on the classes. They use the contracts of the constructors, `Save` and `ExecuteCommands`.

## Left out

- Logging through SLF4J: it has no effect on state.
- Thread safety of the `ConcurrentHashMap` store: the store is a plain sequential map.
- `Robot.toString` and the exception message strings: text formatting only.
- `RobotSimulatorApp`: console prompts, input parsing and retry loops are I/O. The app never checks a new robot's placement against the room or the other robots, so in the model a safe start is a hypothesis of `RunKeepsRobotSafe` and of `ExecuteCommands`' postconditions, not a guarantee.
- The Lombok setters the core never calls, such as `setId`: the id is a constant field. The service's `setPosition` and `setDirection` are direct field assignments.
- `Command.java` as an interface: it is the `Command` datatype, and `Commands.Execute` does the dispatch.
- `Robots.NextPosition`: coordinates are unbounded integers, so Java's 32-bit wrap-around of `x + 1` or `y + 1` is not modelled. It cannot occur for a robot inside a room, whose coordinates are below a dimension that fits in an int.
- `Robots.RobotIdInjective`: the counter is unbounded. The Java `int` counter would wrap after 2^31 - 1 robots and then produce repeated or negative ids.
- `Repository.RobotRepository.FindAll`: it returns the store's current map value. Robots are shared references, so later in-place moves are visible through it. Later `save`/`delete` calls on the live Java map are not reflected in the returned value.
- `Directions.ToUpper`: it upper-cases the ASCII letters a-z and maps U+017F to 'S', as `Character.toUpperCase` does. Every other character keeps its case, whereas Java also upper-cases other letters. No such character has N, E, S or W as its upper case, so no result of `FromSymbol` changes.
- `Commands.CommandFactory.RegisterCommand`: only the three built-in commands can be registered, because `Command` is a closed datatype. Java also accepts user-written `Command` implementations and `null`. After a `null` registration, Java's `getCommand` throws IllegalArgumentException ("Unknown command") for that key as if it were absent. The model's `GetCommand` succeeds for every key present.
