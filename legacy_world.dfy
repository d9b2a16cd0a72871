/** The first server's world (server/world.ts): rooms of at most three players, each room
    numbered from a module-level counter that starts at 1, and the sockets of the joined
    players. The records are the first ones (types/player.ts, types/room.ts): a player has
    no weapon yet and a room is only its id and its players. */
module LegacyWorld {
  import opened Types
  import opened Vector
  import opened ServerWorld

  const MAX_PLAYERS_PER_ROOM: nat := 3
  const MAX_PLAYER_HEALTH: real := 100.0

  /** `Player` of types/player.ts; its `weapon` is always `undefined` and is left out. */
  datatype LegacyPlayer = LegacyPlayer(id: string, roomId: int, joinTimestamp: real,
                                       username: string, health: real, position: Vec,
                                       velocity: Vec)

  /** `Room` of types/room.ts. */
  class LegacyRoom {
    const id: int
    var players: map<string, LegacyPlayer>

    constructor (id: int)
      ensures this.id == id && players == map[]
    {
      this.id := id;
      players := map[];
    }
  }

  class LegacyServer {
    /** `world.rooms`, with its keys in ascending order. */
    var rooms: map<int, LegacyRoom>
    var roomIds: seq<int>
    /** The keys of `players`, the sockets by socket id. */
    var sockets: set<string>
    /** The module-level `nextRoomId`. */
    var nextRoomId: int

    /** Ids ascending, each room stored under its own id, and every id below the counter. */
    ghost predicate Valid()
      reads this
    {
      && Ascending(roomIds)
      && (forall id :: id in rooms <==> id in roomIds)
      && (forall id :: id in rooms ==> rooms[id].id == id && id < nextRoomId)
    }

    /** The module at load time. */
    constructor ()
      ensures Valid() && rooms == map[] && roomIds == [] && sockets == {} && nextRoomId == 1
    {
      rooms, roomIds, sockets, nextRoomId := map[], [], {}, 1;
    }

    /** The rooms with a free seat. */
    ghost function WithSpace(): set<int>
      reads this, rooms.Values
    {
      set id | id in rooms && |rooms[id].players| < MAX_PLAYERS_PER_ROOM
    }

    /** `findOrCreateRoomWithSpace()`: the first room, in key order, with fewer than three
        players; otherwise a new empty room under the counter, which moves on, written into
        `world.rooms`. */
    method FindOrCreateRoomWithSpace() returns (room: LegacyRoom)
      requires Valid()
      modifies this`rooms, this`roomIds, this`nextRoomId
      ensures Valid()
      ensures room.id in rooms && rooms[room.id] == room
      ensures |room.players| < MAX_PLAYERS_PER_ROOM
      ensures var k := FirstIn(old(roomIds), old(WithSpace()));
        k.Some? ==>
          && room == old(rooms[roomIds[k.value]])
          && rooms == old(rooms) && roomIds == old(roomIds) && nextRoomId == old(nextRoomId)
      ensures var k := FirstIn(old(roomIds), old(WithSpace()));
        k.None? ==>
          && fresh(room) && room.id == old(nextRoomId) && room.players == map[]
          && old(nextRoomId) !in old(rooms)
          && rooms == old(rooms)[room.id := room] && roomIds == old(roomIds) + [room.id]
          && nextRoomId == old(nextRoomId) + 1
    {
      ghost var fit := WithSpace();
      for i := 0 to |roomIds|
        invariant forall j :: 0 <= j < i ==> roomIds[j] !in fit
      {
        assert roomIds[i] in roomIds;
        if |rooms[roomIds[i]].players| < MAX_PLAYERS_PER_ROOM {
          assert FirstIn(roomIds, fit) == Some(i);
          return rooms[roomIds[i]];
        }
      }
      assert FirstIn(roomIds, fit) == None;
      room := new LegacyRoom(nextRoomId);
      nextRoomId := nextRoomId + 1;
      InsertIdAbove(roomIds, room.id);
      roomIds := InsertId(roomIds, room.id);
      rooms := rooms[room.id := room];
    }

    /** `joinPlayer(socket, username)`: a player under the socket's id with full health,
        at rest at the origin, in the room found or created for it; its socket is kept
        under the same id. `now` is the clock reading. */
    method JoinPlayer(socketId: string, username: string, now: real)
      returns (room: LegacyRoom, player: LegacyPlayer)
      requires Valid()
      modifies this`rooms, this`roomIds, this`nextRoomId, this`sockets, rooms.Values
      ensures Valid()
      ensures room.id in rooms && rooms[room.id] == room
      ensures player == LegacyPlayer(socketId, room.id, now, username, MAX_PLAYER_HEALTH,
                                     Zero, Zero)
      ensures socketId in room.players && room.players[socketId] == player
      ensures sockets == old(sockets) + {socketId}
      ensures var k := FirstIn(old(roomIds), old(WithSpace()));
        k.Some? ==>
          && room == old(rooms[roomIds[k.value]]) && rooms == old(rooms)
          && room.players == old(room.players)[socketId := player]
      ensures var k := FirstIn(old(roomIds), old(WithSpace()));
        k.None? ==>
          && fresh(room) && room.id == old(nextRoomId)
          && room.players == map[socketId := player]
    {
      room := FindOrCreateRoomWithSpace();
      player := LegacyPlayer(socketId, room.id, now, username, MAX_PLAYER_HEALTH,
                             Xy(0.0, 0.0), Xy(0.0, 0.0));
      sockets := sockets + {socketId};
      room.players := room.players[socketId := player];
    }
  }
}
