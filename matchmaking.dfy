/** Matchmaking with room controllers (server/logic/logic.ts): a joining player is put in the
    first running room, in key order, whose "has a bot" flag matches the request and that
    has a free seat; when there is none a bots room or a normal room is created, registered
    in the world and given its controller. Join and disconnect hand the player to the
    controller of the room. */
module Matchmaking {
  import opened Types
  import opened ServerWorld
  import opened BotSeats
  import opened RoomControllers
  import opened RoomKinds
  import opened Vector
  import opened Numerics
  import opened PhysicsCommon

  /** `Object.values(room.players).some((player) => player.isBot)`. */
  predicate HasBot(players: map<string, Player>) {
    exists k :: k in players && players[k].isBot
  }

  /** The room a player asking for a bots room (or not) may join: its bot flag matches and
      it has fewer players than seats. */
  ghost predicate Fits(room: Room, roomWithBots: bool)
    reads room
  {
    HasBot(room.players) == roomWithBots && |room.players| < room.config.maxPlayers
  }

  /** What `createRoom` builds under a room id: the default bots room with its two bots, or
      the normal room `makeRoom` gives for the id, with nobody in it. */
  ghost predicate Created(room: Room, id: int, makeBot: BotMaker, makeRoom: RoomMaker,
                          roomWithBots: bool)
    reads room
  {
    && room.Valid()
    && (roomWithBots ==>
          && room.config == BaseRoomConfig(id)
          && room.players == BotSeatsUpTo(room.config, makeBot, DEFAULT_BOT_COUNT, DEFAULT_BOT_COUNT)
          && room.order == BotOrder(DEFAULT_BOT_COUNT))
    && (!roomWithBots ==> room.config == makeRoom(id) && room.players == map[] && room.order == [])
  }

  /** The id the room `createRoom` builds is stored under. */
  function CreatedId(makeRoom: RoomMaker, roomWithBots: bool, nextRoomId: int): int {
    if roomWithBots then nextRoomId else makeRoom(nextRoomId).id
  }

  /** The default bots room is never created full. */
  lemma BotsRoomHasSpace(room: Room, id: int, makeBot: BotMaker, makeRoom: RoomMaker)
    requires Created(room, id, makeBot, makeRoom, true)
    ensures |room.players| < room.config.maxPlayers
  {
    SeatedRoomHasSpace(room.config, makeBot, DEFAULT_BOT_COUNT);
  }

  class Matchmaker {
    const world: World
    /** `roomControllers`, by room id. A controller stays here after its room has left
        the world. */
    var controllers: map<int, RoomController>

    /** The rooms of the controllers. */
    ghost function Rooms(): set<Room>
      reads this
    {
      set id | id in controllers :: controllers[id].room
    }

    /** Every running room has its controller, and every controller's room is consistent
        and stored under its own id. */
    ghost predicate Valid()
      reads this, world`rooms, world`roomIds, world`nextRoomId, Rooms()
    {
      && world.Valid()
      && (forall id :: id in controllers ==>
            && controllers[id].room.config.id == id
            && controllers[id].room.Valid())
      && (forall id :: id in world.rooms ==> id in controllers && controllers[id].room == world.rooms[id])
    }

    /** The running rooms a request may join. */
    ghost function Fitting(roomWithBots: bool): set<int>
      reads world, world.rooms.Values
    {
      set id | id in world.rooms && Fits(world.rooms[id], roomWithBots)
    }

    constructor (world: World)
      requires world.Valid() && world.rooms == map[]
      ensures this.world == world && controllers == map[] && Valid()
    {
      this.world := world;
      controllers := map[];
    }

    /** `createRoom(roomWithBots)`: a bots room or a normal room made from the next room
        id, written into `world.rooms` and `roomControllers` under its own id. */
    method CreateRoom(makeBot: BotMaker, makeRoom: RoomMaker, roomWithBots: bool)
      returns (room: Room)
      requires Valid()
      modifies this`controllers, world`rooms, world`roomIds, world`nextRoomId
      ensures Valid()
      ensures fresh(room) && Created(room, old(world.nextRoomId), makeBot, makeRoom, roomWithBots)
      ensures world.nextRoomId == old(world.nextRoomId) + 1
      ensures var id := room.config.id;
        && world.rooms == old(world.rooms)[id := room]
        && world.roomIds == InsertId(old(world.roomIds), id)
        && id in controllers && controllers == old(controllers)[id := controllers[id]]
        && controllers[id].room == room && controllers[id].kind == Base
    {
      var controller;
      if roomWithBots {
        controller := NewBotsRoom(world, makeBot, DEFAULT_BOT_COUNT);
      } else {
        controller := NewNormalRoom(world, makeRoom);
      }
      room := controller.room;
      world.PutRoom(room);
      controllers := controllers[room.config.id := controller];
    }

    /** The loop of `findOrCreateRoomWithSpace`: the first running room, in key order,
        whose bot flag matches the request and that has a free seat. */
    method FirstRoomWithSpace(roomWithBots: bool) returns (found: Option<Room>)
      requires world.Valid()
      ensures var k := FirstIn(world.roomIds, Fitting(roomWithBots));
        && (k.None? ==> found.None?)
        && (k.Some? ==> found == Some(world.rooms[world.roomIds[k.value]]))
    {
      ghost var fit := Fitting(roomWithBots);
      for i := 0 to |world.roomIds|
        invariant forall j :: 0 <= j < i ==> world.roomIds[j] !in fit
      {
        assert world.roomIds[i] in world.roomIds;
        var room := world.rooms[world.roomIds[i]];
        if HasBot(room.players) == roomWithBots && |room.players| < room.config.maxPlayers {
          assert FirstIn(world.roomIds, fit) == Some(i);
          return Some(room);
        }
      }
      return None;
    }

    /** The end of `findOrCreateRoomWithSpace`: a new room, written into `world.rooms` once
        more, which must not be full. `None` is the "Room was created full" assertion
        failing; the default bots room never fails it. */
    method CreateRoomWithSpace(makeBot: BotMaker, makeRoom: RoomMaker, roomWithBots: bool)
      returns (found: Option<Room>)
      requires Valid()
      modifies this`controllers, world`rooms, world`roomIds, world`nextRoomId
      ensures Valid()
      ensures var id := CreatedId(makeRoom, roomWithBots, old(world.nextRoomId));
        && id in world.rooms && fresh(world.rooms[id])
        && Created(world.rooms[id], old(world.nextRoomId), makeBot, makeRoom, roomWithBots)
        && world.nextRoomId == old(world.nextRoomId) + 1
        && world.rooms == old(world.rooms)[id := world.rooms[id]]
        && world.roomIds == InsertId(old(world.roomIds), id)
        && id in controllers && controllers == old(controllers)[id := controllers[id]]
        && controllers[id].room == world.rooms[id] && controllers[id].kind == Base
        && found.Some? == (|world.rooms[id].players| < world.rooms[id].config.maxPlayers)
        && (roomWithBots ==> found.Some?)
        && (found.Some? ==> found.value == world.rooms[id])
    {
      var newRoom := CreateRoom(makeBot, makeRoom, roomWithBots);
      InsertIdPresent(world.roomIds, newRoom.config.id);
      assert world.rooms[newRoom.config.id := newRoom] == world.rooms;
      world.PutRoom(newRoom);
      if roomWithBots {
        BotsRoomHasSpace(newRoom, old(world.nextRoomId), makeBot, makeRoom);
      }
      found := None;
      if |newRoom.players| < newRoom.config.maxPlayers {
        found := Some(newRoom);
      }
    }

    /** `findOrCreateRoomWithSpace(roomWithBots)`: the first running room, in key order,
        that fits the request; otherwise a new room, which must not be full. `None` is the
        "Room was created full" assertion failing. */
    method FindOrCreateRoomWithSpace(makeBot: BotMaker, makeRoom: RoomMaker, roomWithBots: bool)
      returns (found: Option<Room>)
      requires Valid()
      modifies this`controllers, world`rooms, world`roomIds, world`nextRoomId
      ensures Valid()
      ensures found.Some? ==>
        && found.value.config.id in world.rooms && world.rooms[found.value.config.id] == found.value
        && |found.value.players| < found.value.config.maxPlayers
      ensures var k := FirstIn(old(world.roomIds), old(Fitting(roomWithBots)));
        k.Some? ==>
          && found == Some(old(world.rooms[world.roomIds[k.value]]))
          && world.rooms == old(world.rooms) && world.roomIds == old(world.roomIds)
          && world.nextRoomId == old(world.nextRoomId) && controllers == old(controllers)
      ensures var k := FirstIn(old(world.roomIds), old(Fitting(roomWithBots)));
        var id := CreatedId(makeRoom, roomWithBots, old(world.nextRoomId));
        k.None? ==>
          && id in world.rooms && fresh(world.rooms[id])
          && Created(world.rooms[id], old(world.nextRoomId), makeBot, makeRoom, roomWithBots)
          && world.nextRoomId == old(world.nextRoomId) + 1
          && world.rooms == old(world.rooms)[id := world.rooms[id]]
          && world.roomIds == InsertId(old(world.roomIds), id)
          && id in controllers && controllers == old(controllers)[id := controllers[id]]
          && controllers[id].room == world.rooms[id] && controllers[id].kind == Base
          && found.Some? == (|world.rooms[id].players| < world.rooms[id].config.maxPlayers)
          && (roomWithBots ==> found.Some?)
          && (found.Some? ==> found.value == world.rooms[id])
    {
      found := FirstRoomWithSpace(roomWithBots);
      if found.None? {
        found := CreateRoomWithSpace(makeBot, makeRoom, roomWithBots);
      }
    }

    /** The second half of `joinPlayer`: the controller of a running room seats the
        player in it. The controller lookup always succeeds, since every running room has
        one. */
    method SeatPlayer(room: Room, socketId: string, username: string, now: real)
      returns (player: Player)
      requires Valid() && room.config.id in world.rooms && world.rooms[room.config.id] == room
      modifies world`playersById, world`sockets, world`notices, room
      ensures Valid()
      ensures var position := Divide(room.config.size, 2.0);
        player == MakePlayer(socketId, room.config.id, username, position,
                             MakeFlailWeapon(position), now)
      ensures socketId in room.players && room.players[socketId] == player
      ensures world.playersById == old(world.playersById)[socketId := player]
      ensures world.sockets == old(world.sockets) + {socketId}
    {
      var controller := controllers[room.config.id];
      player := controller.JoinPlayer(world, socketId, username, now);
    }

    /** `joinPlayer(socket, username, roomWithBots)`: the room found or created for the
        request, and the player its controller seats there; `None` is the created room
        being full. */
    method JoinPlayer(makeBot: BotMaker, makeRoom: RoomMaker, socketId: string, username: string,
                      roomWithBots: bool, now: real)
      returns (joined: Option<(Room, Player)>)
      requires Valid()
      modifies this`controllers, world`rooms, world`roomIds, world`nextRoomId
      modifies world`playersById, world`sockets, world`notices, Rooms()
      ensures Valid()
      ensures joined.Some? ==>
        var (room, player) := joined.value;
        var position := Divide(room.config.size, 2.0);
        && room.config.id in world.rooms && world.rooms[room.config.id] == room
        && player == MakePlayer(socketId, room.config.id, username, position,
                                MakeFlailWeapon(position), now)
        && socketId in room.players && room.players[socketId] == player
        && world.playersById == old(world.playersById)[socketId := player]
        && world.sockets == old(world.sockets) + {socketId}
      ensures var k := FirstIn(old(world.roomIds), old(Fitting(roomWithBots)));
        k.Some? ==> joined.Some? && joined.value.0 == old(world.rooms[world.roomIds[k.value]])
      ensures var k := FirstIn(old(world.roomIds), old(Fitting(roomWithBots)));
        k.None? && roomWithBots ==> joined.Some? && fresh(joined.value.0)
      ensures joined.None? ==>
        world.playersById == old(world.playersById) && world.sockets == old(world.sockets)
    {
      var found := FindOrCreateRoomWithSpace(makeBot, makeRoom, roomWithBots);
      joined := None;
      if found.Some? {
        var player := SeatPlayer(found.value, socketId, username, now);
        joined := Some((found.value, player));
      }
    }

    /** `disconnectPlayer(player)`: the controller of the room `getRoom` gives for the
        player disconnects it; `false` is the controller lookup failing. */
    method DisconnectPlayer(getRoom: Player -> int, player: Player) returns (ok: bool)
      requires Valid()
      modifies world`playersById, world`sockets, world`notices, Rooms()
      ensures Valid()
      ensures ok == (getRoom(player) in controllers)
      ensures ok ==>
        var c := controllers[getRoom(player)];
        c.HubOf(world) == Disconnected(c.kind, c.room.config, old(c.HubOf(world)), player)
      ensures !ok ==>
        && world.playersById == old(world.playersById) && world.sockets == old(world.sockets)
        && world.notices == old(world.notices)
    {
      var roomId := getRoom(player);
      if roomId !in controllers {
        return false;
      }
      controllers[roomId].DisconnectPlayer(world, player);
      ok := true;
    }

    /** One firing of the interval `createRoom` starts for a room: it stops once the room
        has left the world, and otherwise runs the controller's `updateRoom` over the
        elapsed milliseconds turned into seconds. */
    method RunInterval(m: Math, cs: Callees, bots: BotStep, controller: RoomController,
                       elapsedMs: real)
      returns (running: bool)
      requires Valid() && 0.0 < elapsedMs
      requires controller.room.config.id in controllers
      requires controllers[controller.room.config.id] == controller
      modifies world`rooms, world`roomIds, world`playersById, world`sockets, world`notices
      modifies controller.room
      ensures Valid()
      ensures running == (controller.room.config.id in old(world.rooms))
      ensures world.rooms.Keys <= old(world.rooms.Keys)
      ensures !running ==> world.rooms == old(world.rooms) && world.notices == old(world.notices)
    {
      if controller.room.config.id !in world.rooms {
        return false;
      }
      var _ := controller.UpdateRoom(m, cs, world, bots, elapsedMs / 1000.0);
      running := true;
    }
  }
}
