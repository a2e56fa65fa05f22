/** The rectangular room: the record `Room(width, height)`. */
module Rooms {
  import opened Outcomes
  import opened Positions

  datatype Room = Room(width: int, height: int) {

    /** What the record's constructor guarantees of every room that exists. */
    predicate Valid() {
      width > 0 && height > 0
    }

    /** The cells of the room: x in [0, width) and y in [0, height). Only a
        room with positive dimensions holds any cell. */
    predicate IsWithinBounds(p: Position)
      ensures IsWithinBounds(p) ==> Valid()
    {
      0 <= p.x < width && 0 <= p.y < height
    }
  }

  /** The record's canonical constructor, which throws IllegalArgumentException
      unless both dimensions are positive. */
  function NewRoom(width: int, height: int): (r: Result<Room>)
    ensures r.Ok? <==> width > 0 && height > 0
    ensures r.Err? ==> r.error == IllegalArgument
    ensures r.Ok? ==> r.value.Valid() && r.value.width == width && r.value.height == height
  {
    if width <= 0 || height <= 0 then Err(IllegalArgument) else Ok(Room(width, height))
  }

  /** A valid room holds its two extreme corners and nothing on the column
      x = width or on the row y = height. */
  lemma Corners(room: Room)
    requires room.Valid()
    ensures room.IsWithinBounds(Position(0, 0))
    ensures room.IsWithinBounds(Position(room.width - 1, room.height - 1))
    ensures forall y: nat :: !room.IsWithinBounds(Position(room.width, y))
    ensures forall x: nat :: !room.IsWithinBounds(Position(x, room.height))
  {
  }
}
