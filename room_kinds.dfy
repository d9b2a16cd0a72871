/** The three kinds of room the server builds: the bots room (`BotsRoom`), which is a base
    room seated with bots before its controller is made; the load-test room
    (`LoadTestRoom`), whose size and capacity follow its bot count; and the normal room
    (`makeNormalRoom`). Each takes its id from the world's room-id counter. */
module RoomKinds {
  import opened Types
  import opened Vector
  import opened ServerWorld
  import opened Digits
  import opened BotSeats
  import opened RoomControllers

  /** `new BotsRoom()` with no argument seats two bots. */
  const DEFAULT_BOT_COUNT: nat := 2

  /** `makeRoom(roomId)` of common/types/room.ts, which is not part of this model: the
      settings of a normal room as some function of its id. */
  type RoomMaker = int -> RoomConfig

  /** The settings of a load-test room for botCount bots: a base room with one seat more
      than the bots and 1000 of width per bot. */
  function LoadTestConfig(roomId: int, botCount: nat): (c: RoomConfig)
    ensures c.id == roomId && c.maxPlayers == botCount + 1
    ensures c.size == Xy(1000.0 * botCount as real, 1000.0)
    ensures c.gravity == BaseRoomConfig(roomId).gravity
    ensures c.maxPlayerSpeed == BaseRoomConfig(roomId).maxPlayerSpeed
    ensures c.maxPlayerAcceleration == BaseRoomConfig(roomId).maxPlayerAcceleration
  {
    BaseRoomConfig(roomId).(maxPlayers := botCount + 1, size := Xy(1000.0 * botCount as real, 1000.0))
  }

  /** `new BotsRoom(botCount)`: a base room under the next room id, with bots 1 to botCount
      written in order, then a base controller over it. */
  method NewBotsRoom(world: World, makeBot: BotMaker, botCount: nat)
    returns (controller: RoomController)
    modifies world`nextRoomId
    ensures fresh(controller) && fresh(controller.room) && controller.kind == Base
    ensures world.nextRoomId == old(world.nextRoomId) + 1
    ensures var room := controller.room;
      && room.config == BaseRoomConfig(old(world.nextRoomId)) && room.Valid()
      && room.players == BotSeatsUpTo(room.config, makeBot, botCount, botCount)
      && room.order == BotOrder(botCount)
  {
    var roomId := world.TakeRoomId();
    var room := new Room(BaseRoomConfig(roomId));
    var i := 0;
    while i < botCount
      modifies room
      invariant 0 <= i <= botCount && room.Valid()
      invariant room.players == BotSeatsUpTo(room.config, makeBot, botCount, i)
      invariant room.order == BotOrder(i)
    {
      // The loop body writes the same record as `addBot(i + 1, botCount, room)`.
      BotSeatsFresh(room.config, makeBot, botCount, i);
      AddBot(room, makeBot, i + 1, botCount);
      i := i + 1;
    }
    controller := new RoomController(room, Base);
  }

  /** `new LoadTestRoom(botCount)`: the load-test settings under the next room id, with
      `addBot` run for bots 1 to botCount, then a load-test controller over it; `nanX` is the
      stand-in its controller uses for the x coordinate NaN. */
  method NewLoadTestRoom(world: World, makeBot: BotMaker, botCount: nat, nanX: real)
    returns (controller: RoomController)
    modifies world`nextRoomId
    ensures fresh(controller) && fresh(controller.room)
    ensures controller.kind == LoadTest(botCount, makeBot, nanX)
    ensures world.nextRoomId == old(world.nextRoomId) + 1
    ensures var room := controller.room;
      && room.config == LoadTestConfig(old(world.nextRoomId), botCount) && room.Valid()
      && room.players == BotSeatsUpTo(room.config, makeBot, botCount, botCount)
      && room.order == BotOrder(botCount)
  {
    var roomId := world.TakeRoomId();
    var room := new Room(LoadTestConfig(roomId, botCount));
    var i := 1;
    while i <= botCount
      modifies room
      invariant 1 <= i <= botCount + 1 && room.Valid()
      invariant room.players == BotSeatsUpTo(room.config, makeBot, botCount, i - 1)
      invariant room.order == BotOrder(i - 1)
    {
      BotSeatsFresh(room.config, makeBot, botCount, i - 1);
      AddBot(room, makeBot, i, botCount);
      i := i + 1;
    }
    controller := new RoomController(room, LoadTest(botCount, makeBot, nanX));
  }

  /** `makeNormalRoom()`: the room `makeRoom` builds under the next room id, with a base
      controller over it. */
  method NewNormalRoom(world: World, makeRoom: RoomMaker) returns (controller: RoomController)
    modifies world`nextRoomId
    ensures fresh(controller) && fresh(controller.room) && controller.kind == Base
    ensures world.nextRoomId == old(world.nextRoomId) + 1
    ensures var room := controller.room;
      && room.config == makeRoom(old(world.nextRoomId)) && room.Valid()
      && room.players == map[] && room.order == []
  {
    var roomId := world.TakeRoomId();
    var room := new Room(makeRoom(roomId));
    controller := new RoomController(room, Base);
  }

  /** A room seated with its bots has a free seat when it has more seats than bots; so the
      default bots room (two bots, five seats) and every load-test room are never created
      full. */
  lemma SeatedRoomHasSpace(config: RoomConfig, makeBot: BotMaker, botCount: nat)
    requires botCount < config.maxPlayers
    ensures |BotSeatsUpTo(config, makeBot, botCount, botCount)| < config.maxPlayers
  {
    BotSeatsCount(config, makeBot, botCount, botCount);
  }
}
