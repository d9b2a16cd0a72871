/** The server-wide state the room controllers share: the running rooms by id with the
    room-id counter, the player records and sockets by socket id, and the notices the
    server has broadcast. Room ids are numbers, and JavaScript visits the integer keys of
    `world.rooms` in ascending order whatever order they were written in; `roomIds` is
    that order. */
module ServerWorld {
  import opened Types
  import opened RoomTick

  ghost predicate Ascending(ids: seq<int>) {
    forall i, j :: 0 <= i < j < |ids| ==> ids[i] < ids[j]
  }

  /** The key order after `world.rooms[id] = room`. */
  function InsertId(ids: seq<int>, id: int): (r: seq<int>)
    requires Ascending(ids)
    ensures Ascending(r)
    ensures forall x :: x in r <==> x in ids || x == id
  {
    if |ids| == 0 then [id]
    else if id < ids[0] then [id] + ids
    else if id == ids[0] then ids
    else
      var rest := InsertId(ids[1..], id);
      assert forall x :: x in ids[1..] ==> ids[0] < x;
      assert forall j :: 0 <= j < |rest| ==> rest[j] in ids[1..] || rest[j] == id;
      [ids[0]] + rest
  }

  /** The key order after `delete world.rooms[id]`. */
  function RemoveId(ids: seq<int>, id: int): (r: seq<int>)
    requires Ascending(ids)
    ensures Ascending(r)
    ensures forall x :: x in r <==> x in ids && x != id
  {
    if |ids| == 0 then []
    else if ids[0] == id then RemoveId(ids[1..], id)
    else
      var rest := RemoveId(ids[1..], id);
      assert forall x :: x in ids[1..] ==> ids[0] < x;
      assert forall j :: 0 <= j < |rest| ==> rest[j] in ids[1..];
      [ids[0]] + rest
  }

  /** The place in `ids` of the first id in `fit`: what a scan over the rooms in key
      order that stops at the first room passing a test returns. */
  function FirstIn(ids: seq<int>, fit: set<int>): (r: Option<nat>)
    ensures r.Some? ==> r.value < |ids| && ids[r.value] in fit
    ensures r.Some? ==> forall j :: 0 <= j < r.value ==> ids[j] !in fit
    ensures r.None? ==> forall j :: 0 <= j < |ids| ==> ids[j] !in fit
  {
    if |ids| == 0 then None
    else if ids[0] in fit then Some(0)
    else match FirstIn(ids[1..], fit)
      case None => None
      case Some(k) => Some(k + 1)
  }

  /** Writing under an id the index already holds leaves the key order as it is. */
  lemma {:induction false} InsertIdPresent(ids: seq<int>, id: int)
    requires Ascending(ids) && id in ids
    ensures InsertId(ids, id) == ids
  {
    if ids[0] != id {
      assert id in ids[1..];
      InsertIdPresent(ids[1..], id);
      assert [ids[0]] + ids[1..] == ids;
    }
  }

  /** An id above every id of the index goes last. */
  lemma {:induction false} InsertIdAbove(ids: seq<int>, id: int)
    requires Ascending(ids) && forall x :: x in ids ==> x < id
    ensures InsertId(ids, id) == ids + [id]
  {
    if |ids| > 0 {
      assert ids[0] in ids;
      assert forall x :: x in ids[1..] ==> x in ids;
      InsertIdAbove(ids[1..], id);
      assert [ids[0]] + (ids[1..] + [id]) == ids + [id];
    }
  }

  class World {
    var rooms: map<int, Room>
    var roomIds: seq<int>
    var nextRoomId: int
    /** `playersById`. */
    var playersById: map<string, Player>
    /** The keys of `socketsById`; the sockets themselves are transport objects. */
    var sockets: set<string>
    ghost var notices: seq<Notice>

    /** The room index: ids ascending, each the id of the room stored under it. */
    ghost predicate Valid()
      reads this`rooms, this`roomIds
    {
      && Ascending(roomIds)
      && (forall id :: id in rooms <==> id in roomIds)
      && (forall id :: id in rooms ==> rooms[id].config.id == id)
    }

    /** The world at start-up; the first room id is a parameter. */
    constructor (firstRoomId: int)
      ensures Valid() && rooms == map[] && roomIds == [] && nextRoomId == firstRoomId
      ensures playersById == map[] && sockets == {} && notices == []
    {
      rooms, roomIds, nextRoomId := map[], [], firstRoomId;
      playersById, sockets, notices := map[], {}, [];
    }

    /** `world.nextRoomId++`: the current value is used and the counter moves on. */
    method TakeRoomId() returns (id: int)
      modifies this`nextRoomId
      ensures id == old(nextRoomId) && nextRoomId == id + 1
    {
      id := nextRoomId;
      nextRoomId := nextRoomId + 1;
    }

    /** `world.rooms[room.id] = room`. */
    method PutRoom(room: Room)
      requires Valid()
      modifies this`rooms, this`roomIds
      ensures Valid()
      ensures rooms == old(rooms)[room.config.id := room]
      ensures roomIds == InsertId(old(roomIds), room.config.id)
    {
      roomIds := InsertId(roomIds, room.config.id);
      rooms := rooms[room.config.id := room];
    }

    /** `delete world.rooms[id]`. */
    method DeleteRoom(id: int)
      requires Valid()
      modifies this`rooms, this`roomIds
      ensures Valid()
      ensures rooms == old(rooms) - {id} && roomIds == RemoveId(old(roomIds), id)
    {
      roomIds := RemoveId(roomIds, id);
      rooms := rooms - {id};
    }
  }
}
