/** The in-memory robot store: an id-to-robot map holding robot references. */
module Repository {
  import opened Robots

  class RobotRepository {
    var store: map<string, Robot>

    constructor ()
      ensures store == map[]
    {
      store := map[];
    }

    /** Puts the robot under its id, replacing any earlier entry for that id
        and leaving every other id as it was. */
    method Save(robot: Robot)
      modifies this
      ensures store == old(store)[robot.id := robot]
    {
      store := store[robot.id := robot];
    }

    /** The robot stored under the id, or null. */
    method FindById(id: string) returns (robot: Robot?)
      ensures robot != null <==> id in store
      ensures robot != null ==> robot == store[id]
    {
      robot := if id in store then store[id] else null;
    }

    /** The store itself: the robots are shared references, so a robot moved
        in place is seen moved through the answer. */
    method FindAll() returns (all: map<string, Robot>)
      ensures all == store
    {
      all := store;
    }

    /** Removes the entry for the id, if there is one; nothing else changes. */
    method Delete(id: string)
      modifies this
      ensures store == old(store) - {id}
    {
      store := store - {id};
    }
  }
}
