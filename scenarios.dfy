/** The simulator's test scenarios, replayed against the model's classes. */
module Scenarios {
  import opened Outcomes
  import opened Positions
  import opened Directions
  import opened Rooms
  import opened Robots
  import opened Repository
  import opened Simulation

  /** Saving the same robot twice leaves the store as saving it once. */
  method SaveTwice(repository: RobotRepository, robot: Robot)
    modifies repository
    ensures repository.store == old(repository.store)[robot.id := robot]
    ensures repository.store[robot.id] == robot
  {
    repository.Save(robot);
    repository.Save(robot);
  }

  /** Deleting an id that was never saved, or was already deleted, changes
      nothing; deleting a saved robot's id makes it unfindable. */
  method DeleteAbsentAndPresent(repository: RobotRepository, robot: Robot, absent: string)
    modifies repository
    requires absent !in repository.store
    ensures repository.store == old(repository.store) - {robot.id}
  {
    repository.Delete(absent);
    assert repository.store == old(repository.store);
    repository.Save(robot);
    repository.Delete(robot.id);
    var found := repository.FindById(robot.id);
    assert found == null;
  }

  /** In a 5 x 5 room with nothing else stored, "RF" from (0, 0) facing north
      ends on (1, 0) facing east. */
  lemma BasicMovement()
    ensures Run(Pose(Position(0, 0), North), "RF", Room(5, 5), Snapshot({}, true)) ==
            Outcome(Pose(Position(1, 0), East), None)
  {
  }

  /** From (4, 4) facing north, "F" leaves the room: OutOfBounds, robot unmoved. */
  lemma BoundaryStop()
    ensures Run(Pose(Position(4, 4), North), "F", Room(5, 5), Snapshot({}, true)) ==
            Outcome(Pose(Position(4, 4), North), Some(OutOfBounds))
  {
  }

  /** The three runs of the three-robot test, each against the cells where
      the other two robots stand at that point. */
  lemma ThreeRobotRuns()
    ensures Run(Pose(Position(0, 0), North), "RF", Room(5, 5), Snapshot({Position(2, 2), Position(4, 0)}, true)) ==
            Outcome(Pose(Position(1, 0), East), None)
    ensures Run(Pose(Position(2, 2), East), "LF", Room(5, 5), Snapshot({Position(1, 0), Position(4, 0)}, true)) ==
            Outcome(Pose(Position(2, 3), North), None)
    ensures Run(Pose(Position(4, 0), West), "RF", Room(5, 5), Snapshot({Position(1, 0), Position(2, 3)}, true)) ==
            Outcome(Pose(Position(4, 1), North), None)
  {
  }

  /** With three distinct robots stored under distinct ids, a move of the
      first is checked against the cells of the other two. */
  lemma SnapshotOfThree(service: SimulationService, a: Robot, b: Robot, c: Robot)
    requires service.repository.store == map[a.id := a, b.id := b, c.id := c]
    requires a.id != b.id && a.id != c.id && b.id != c.id
    requires a != b && a != c && b != c
    ensures service.SnapshotFor(a) == Snapshot({b.position, c.position}, true)
  {
    var store := service.repository.store;
    assert store[a.id] == a && store[b.id] == b && store[c.id] == c;
    assert a in store.Values;
    var others := service.SnapshotFor(a).others;
    forall p | p in others
      ensures p == b.position || p == c.position
    {
      var k :| k in store && store[k] != a && store[k].position == p;
    }
    assert b.position in others && c.position in others;
  }

  /** The tests' set-up: a 5 x 5 room, an empty store, and three robots
      created in sequence from a fresh counter and saved. Their ids are
      distinct, so all three are stored. */
  method SetUp(p1: Position, d1: Direction, p2: Position, d2: Direction, p3: Position, d3: Direction)
    returns (service: SimulationService, robot1: Robot, robot2: Robot, robot3: Robot)
    ensures fresh(robot1) && fresh(robot2) && fresh(robot3)
    ensures service.room == Room(5, 5)
    ensures robot1 != robot2 && robot1 != robot3 && robot2 != robot3
    ensures robot1.id != robot2.id && robot1.id != robot3.id && robot2.id != robot3.id
    ensures robot1.State() == Pose(p1, d1) && robot2.State() == Pose(p2, d2) && robot3.State() == Pose(p3, d3)
    ensures service.repository.store == map[robot1.id := robot1, robot2.id := robot2, robot3.id := robot3]
  {
    var ids := new IdCounter();
    var repository := new RobotRepository();
    service := new SimulationService(repository, Room(5, 5));
    robot1 := new Robot(p1, d1, ids);
    robot2 := new Robot(p2, d2, ids);
    robot3 := new Robot(p3, d3, ids);
    RobotIdInjective(1, 2);
    RobotIdInjective(1, 3);
    RobotIdInjective(2, 3);
    repository.Save(robot1);
    repository.Save(robot2);
    repository.Save(robot3);
  }

  /** Three robots run "RF", "LF" and "RF" in turn, each seeing the others
      where they were left. */
  method ThreeRobots()
  {
    var service, robot1, robot2, robot3 :=
      SetUp(Position(0, 0), North, Position(2, 2), East, Position(4, 0), West);
    var store := service.repository.store;
    assert store == map[robot2.id := robot2, robot1.id := robot1, robot3.id := robot3];
    assert store == map[robot3.id := robot3, robot1.id := robot1, robot2.id := robot2];

    ThreeRobotRuns();

    SnapshotOfThree(service, robot1, robot2, robot3);
    var err1 := service.ExecuteCommands(robot1, "RF");
    assert err1 == None && robot1.State() == Pose(Position(1, 0), East);

    SnapshotOfThree(service, robot2, robot1, robot3);
    var err2 := service.ExecuteCommands(robot2, "LF");
    assert err2 == None && robot2.State() == Pose(Position(2, 3), North);

    SnapshotOfThree(service, robot3, robot1, robot2);
    var err3 := service.ExecuteCommands(robot3, "RF");
    assert err3 == None && robot3.State() == Pose(Position(4, 1), North);
  }

  /** A robot on (2, 1) facing north may not step onto (2, 2), where another
      robot stands: Collision, and it stays put. */
  method CollisionStop()
  {
    var service, robot1, robot2, robot3 :=
      SetUp(Position(2, 2), North, Position(2, 3), South, Position(2, 1), North);
    assert service.repository.store == map[robot3.id := robot3, robot1.id := robot1, robot2.id := robot2];
    SnapshotOfThree(service, robot3, robot1, robot2);
    var err := service.ExecuteCommands(robot3, "F");
    assert "F"[1..] == "";
    assert err == Some(Collision) && robot3.State() == Pose(Position(2, 1), North);
  }
}
