/**
 * The room record the API returns, as the components read it, and the
 * per-id status rewrite that archiving and restoring apply to a list of rooms.
 */
module Rooms {
  import opened Common

  /** Room statuses. */
  const Available := 0
  const Maintenance := 1
  const Blocked := 2
  const Archived := 3

  /** A room as fetched; any field but the id and the status may be missing. */
  datatype Room = Room(
    id: int,
    name: Option<string>,
    pricePerDay: Option<int>,
    status: int,
    description: Option<string>,
    capacity: Option<int>,
    area: Option<int>)

  /** `room.name || ""`. */
  function NameOrEmpty(room: Room): string {
    room.name.GetOr("")
  }

  /** `room.pricePerDay || 0`. */
  function PriceOrZero(room: Room): int {
    room.pricePerDay.GetOr(0)
  }

  /**
   * `rooms.map(room => room.id === id ? { ...room, status } : room)`:
   * every room with that id gets the new status, nothing else changes.
   */
  function WithStatus(rooms: seq<Room>, id: int, status: int): (r: seq<Room>)
    ensures |r| == |rooms|
    ensures forall i :: 0 <= i < |rooms| ==>
      r[i] == if rooms[i].id == id then rooms[i].(status := status) else rooms[i]
  {
    MapWhere(rooms, (room: Room) => room.id == id, (room: Room) => room.(status := status))
  }

  /** Two rewrites of the same id: the second one wins. */
  lemma WithStatusTwice(rooms: seq<Room>, id: int, first: int, second: int)
    ensures WithStatus(WithStatus(rooms, id, first), id, second) == WithStatus(rooms, id, second)
  {
    var once := WithStatus(rooms, id, first);
    assert forall i :: 0 <= i < |rooms| ==> once[i].id == rooms[i].id;
  }

  /** A rewrite for an id no room has leaves the list as it was. */
  lemma WithStatusAbsentId(rooms: seq<Room>, id: int, status: int)
    requires forall i :: 0 <= i < |rooms| ==> rooms[i].id != id
    ensures WithStatus(rooms, id, status) == rooms
  {
  }
}
